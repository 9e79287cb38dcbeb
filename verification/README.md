# Verified model of the Tetris relay, lockstep game and meta ledger

A Dafny 4.11 model of the parts of the repository whose correctness spans many functions, with
machine-checked proofs. `dafny verify dfyconfig.toml` checks all of it.

What is modelled, and the main result of each part:

* **The event-loop relay** (`RelayState` to `RelayLoop`). One loop owns every connection, the match
  queue, rooms, channels and the process-wide counters. Class `RelayLoop` has the handlers of
  `server/reactor_relay.cpp` with their mutual recursion: a close tells the partner, the send can close
  the partner, and so on. Every method keeps one invariant (`RelayState.Inv`: pointers agree both ways,
  exact send and connection ledgers within their limits, registered interest, no survivor left behind,
  at most one posted result per match, only whole frames queued to anyone), the recursion terminates
  because each effective close leaves one live connection fewer, and `RelayLoop.RelayLoop.Run` keeps
  `Steady` over every script of accepts, chunks, writability, timeouts, verifications and save results.
  A room match starts exactly if both occupants have said READY(1) last (`RelayLoop.RelayLoop.OnRoom`,
  `RelayStages.RoomMatchIsAgreed`). Connections are closed for a cause: behind the first command an event closes at most the connection it is
  about and its partner, and bytes close nobody unless their sender has offended or a send has failed
  (`RelayLoop.RelayLoop.Handle`).
* **What reaches the opponent** (`QueuePath`, `RelayPath`). `QueuePath` is one client's way through first
  command, authentication, queue, lobby and forwarding as a small automaton; there every chunking delivers
  exactly the client's frames. Every handler of `RelayLoop` is proved to move each connection's buffer, and
  the bytes its opponent got, as that automaton does, or to close one of the two, so `Run` keeps every
  connection on a run of it (`RelayPath.Traced`) and the result holds of the relay: the opponent's whole
  stream is MATCH_FOUND, READY(1) and the filtered frames (`RelayPath.PlayIsExact`).
* **Framing and screening** (`Framing`, `Screening`, `ClientStream`). The streaming parser is
  incremental and inverse to the printer, and drops a frame with any one byte of payload or checksum damaged; the batched forwarding filter equals a frame-at-a-time filter
  under every chunking and lets no server-only frame through for any input; what clients send as their first
  command and as their decision is read as meant.
* **The game** (`SimGrid`, `SimBlock`, `Rng`, `SimRules`, `Misfit`, `Steering`, `Locking`, `SimGame`,
  `SevenBag`, `Bot`). In-place row clearing and garbage refine plain descriptions; every lock, placement and
  frame-level move keeps the board, bag, level and pace in order; each key moves the cells of the piece as its
  name says and nothing else (`Steering.InputObeys`), and a lock writes, clears, pays, deals and takes garbage in
  as the rules say (`Locking.LockedLocks`), both stated over cells; placements land on the last row before the
  first blocked one; over every run the pieces dealt come in sevens; the bot picks the first best.
* **Lockstep and the verdict** (`Duel`, `Lockstep`, `MatchOutcome`). Two clients exchange inputs under any
  interleaving of ticks, stall heartbeats, arrivals and losses; a frame of inputs adds exactly its own masks
  near the latest tick; equal progress means mirrored boards, garbage balances at every tick, and honest reports at the end make the relay's cross-check name
  exactly the side whose board survived.
* **Timers** (`TimerQueue`): the heap with outdated entries refines a map from token to deadline.
* **Two threads per room** (`RoomHandover`) and **two forwarders per match** (`ThreadedRelay`): state
  machines over atomic sections; one match start per room, only when the last word of both was ready, by
  threads that have stopped reading, notices in version order, exactly which rooms are left with a guest nobody serves, at most one post per
  match.
* **The ledger** (`Elo`, `Ledger`): the winner's rating does not fall, the loser's does not rise, nobody else's
  moves, and an upset pays no less; ratings, experience and what was charged add up over any sequence of
  calls, with reads and transactions that may fail at any statement; currency equals earnings less the prices
  of the icons owned exactly if no icon was sold to anybody twice.
* **Glyph packing** (`Atlas`): rectangles placed since the last wipe are apart and inside the texture.

Modelling conventions. Relay objects (connections, rooms, channels) are identity objects kept in arenas
and named by index, so a reference can never dangle. A socket send takes any prefix or fails, a read
delivers any bytes, a deadline may strike at any moment, a random code is any code: nondeterministic
choices. Fields commented "history" or declared `ghost` exist for specifications, such as the
count of failed sends and the list of committed purchases. Integers are unbounded;
where the program's width matters (lengths, checksums, the 64-bit random state, 32-bit report fields) the
reduction is written out. Small methods such as `RelayLoop.RelayLoop.Depart` perform one stretch of
assignments and are specified by a state function (`RelayClose.Gone`) whose properties are lemmas.

Where the code and its own comments differ, the model follows the code:

* `src/sim_game.h:35-37` says every column where a piece can land is listed; the search covers columns 0
  to 9, while a turned piece may fit at column -1 (`SimGame.UnlistedPlacement`).
* `meta/database.cpp:371-420` reports an error after a committed purchase when reading the account back
  fails; the icon then stays bought. `Ledger.Database.PurchaseIcon` says exactly when: its ghost result
  `committed` is true of an error exactly if the books changed.
* A failed ownership SELECT counts as "not owned" (`meta/database.cpp:165-178`). `purchaseIcon` then charges
  again for an icon already owned, and `INSERT OR IGNORE` lets the transaction commit. The currency equation
  survives a call exactly if no purchase of an icon already owned was committed in it
  (`Ledger.SoldKeepsBooks`, `Ledger.Database.PurchaseIcon`), and a run exactly if nobody was sold anything
  again (`Ledger.Database.Run`); `Ledger.ChargedTwice` is an input. `selectIcon` likewise refuses an owned icon.
* A comment in the threaded rooms says the guest's deadline clears up a room its host has left
  (`server/room.cpp:352-356`). If the host leaves between a guest's entry and the version check
  (`server/room.cpp:194-221`), the guest's thread returns with its slot taken and its socket open, and the
  room stays for good (`RoomHandover.GreetedServed`, `RoomHandover.ForgottenGuest`); no other step leaves a slot
  without a thread (`RoomHandover.RoomRegistry.Take`).
* `saveMatch` itself accepts a player who beats himself; the books then no longer balance. They balance
  after a new match exactly if it is not of that kind (`Ledger.SaveKeepsBooks`), and the API's guard
  excludes it (`Ledger.Database.PostMatch`).
* Whether the next piece fits is tested before full rows are cleared (`src/sim_game.cpp:256-268`), so the
  game can go on with a piece that does not fit. A lock leaves one exactly if no garbage waits and the
  piece fits before clearing and not afterwards (`Misfit.LockLeavesMisfit`); `Misfit.TightMisfits` and
  `TightGameIsTight` give an input.
* A lock writes its four cells unchecked (`src/sim_game.cpp:249-252`). A hard drop writes four empty cells of
  the board exactly if the piece fits where it starts or one row higher (`Misfit.DropIsClean`, and
  `Misfit.InputDropIsClean` for a whole input); gravity and the soft drop exactly if it fits where it is
  (`Misfit.LowerIsClean`). Otherwise cells are overwritten, or the program writes outside its array, as it
  does at `Misfit.AboveTheBoard`. The model's `Put` ignores cells off the board, here and in the duel and
  lockstep results, which run through such states too; the order of the game is kept all the same
  (`SimRules.SubmittedOk`, `Duel.FoughtOk`). Placement-level play never locks a piece that does not fit.

* The cross-check is meant to name whoever alone claims the win (`server/relay.cpp:139-147`), but compares flags:
  with matching numbers and unequal flags it names A if A's flag is 1 and B otherwise
  (`server/reactor_relay.cpp:1693-1699`). It names what the two accounts agree on exactly unless the numbers match
  and the flags are unequal, A's not 0, and not 1 against 0 (`MatchOutcome.CrossCheckIsAgreed`);
  `MatchOutcome.ClaimOverruled` is an input. Clients send 0 or 1 (`MatchOutcome.PostedIsAgreed`).

## Model

| member | source | states |
|---|---|---|
| Bytes.LeRoundTrip | net/framing.cpp:16-31 | reading back a little-endian number of n bytes gives the number |
| Bytes.LeWrite | net/framing.cpp:16-24 | the byte-by-byte writer appends exactly the little-endian form |
| Bytes.Fnv1a32 | net/framing.cpp:10-15 | the in-order loop computes FNV-1a and stays a 32-bit word |
| Bytes.OneByteOff | net/framing.cpp:10-15 | FNV-1a notices every single byte that is off, at any place in data of any length |
| Framing.ParseFrames | net/framing.cpp:47-87 | the offset loop consumes exactly the whole frames, appends exactly the good ones, keeps exactly the unfinished tail, and clears the buffer at an oversized length |
| Framing.SplitPartition | net/framing.cpp:47-87 | whole frames and tail together are the stream, byte for byte |
| Framing.SplitAppend | net/framing.cpp:47-87 | cutting is incremental: the tail of one chunk continued by the next yields what one cut of both yields |
| Framing.ParseAppend | net/framing.cpp:47-87 | the frames of a stream are those of its first part followed by those of the kept tail with the second part |
| Framing.FeedIsParse | net/framing.cpp:47-87 | under every chunking, feeding a stream up to an oversized header gives the frames of one call |
| Framing.ParseTail | net/framing.cpp:47-87 | a successful call leaves fewer than 4103 bytes, none of which form a whole frame |
| Framing.BuildDecode | net/framing.cpp:32-46 | one printed frame is one whole frame and parses back to type and payload |
| Framing.BuildParse | net/framing.cpp:32-87 | printed frames followed by an unfinished tail parse back to exactly those frames and that tail |
| Framing.Damaged | net/framing.cpp:32-87 | a frame with any one byte of its payload or checksum replaced is dropped and the frames behind it are read all the same; a replaced type byte is not noticed |
| Framing.ResidualParse | server/reactor_relay.cpp:939-947 | printing the frames behind a command again, with the tail, loses no frame and invents none |
| Framing.ResidualFits | server/reactor_relay.cpp:939-947 | the re-printed remainder is no longer than what was received |
| Screening.OutIsSafe | server/reactor_relay.cpp:1505-1606 | for any bytes at all, what is pushed is whole frames that parse with nothing left over to the filtered frames |
| Screening.OutHasNoServerFrame | server/reactor_relay.cpp:1505-1606 | no pushed frame has a server-only type, nor MATCH_SUMMARY in a ranked match, whatever its checksum |
| Screening.OneFrameScreened | net/framing.h:122-127 | of the protocol's types exactly MATCH_FOUND, ROOM_INFO, MATCH_RESULT and SERVER_REJECT, and in a ranked match MATCH_SUMMARY, are withheld; any other frame passes byte for byte |
| Screening.ForwardedIsClean | server/reactor_relay.cpp:1505-1606 | the same for everything pushed over any list of reads |
| Screening.ForwardedIsExact | server/reactor_relay.cpp:1505-1540 | without an oversized header any chunking pushes exactly what one pass over the whole stream pushes |
| Screening.ForwardedFrames | server/reactor_relay.cpp:1505-1606 | the batched path equals the frame-at-a-time filter under every chunking |
| Screening.ScreenFromStart | server/reactor_relay.cpp:1505-1540 | the run-batching loop, whatever runs it forms, ends with exactly the filtered bytes pushed and the right rest kept |
| Screening.RankedFromStart | server/reactor_relay.cpp:1560-1604 | so does the ranked loop that pushes frame by frame |
| ClientStream.FirstFits | server/reactor_relay.cpp:926-981 | what stays buffered after the first command is no longer than what was there |
| ClientStream.EntryRead | net/session.cpp:484-499 | QUEUE_JOIN and ROOM_CREATE as clients send them are understood as meant, token included, and nothing behind them is lost |
| ClientStream.JoinRead | net/session.cpp:484-505 | so is ROOM_JOIN with a code of one to five characters; with an empty or longer one it is passed over |
| ClientStream.DecisionRead | server/reactor_relay.cpp:1380-1425 | a READY with a non-zero first byte accepts, any other READY and QUEUE_CANCEL decline, any other frame stops the reading |
| ClientStream.CancelRead | server/reactor_relay.cpp:1263-1282 | of whole frames one QUEUE_CANCEL, wherever it stands, ends the wait, and nothing else does |
| QueuePath.RunKeepsInv | server/reactor_relay.cpp:926-1606 | at every point of every run the client's buffer is the unread rest of its stream, stage by stage, and the opponent got nothing but MATCH_FOUND, READY(1) and the filtered frames |
| QueuePath.StreamIntegrity | server/reactor_relay.cpp:926-1606 | under every chunking and timing a client that joins, accepts and plays is never closed by the path; before pairing nothing of it is sent; from the start its opponent's whole stream is MATCH_FOUND, READY(1) and exactly its later frames minus server-only types |
| RelayPath.DriftsOnPath | server/reactor_relay.cpp:592-786 | whatever closes and sends happen, a connection still on its way was on it before, with the same opponent, stage and buffer |
| RelayPath.SettledFollows | server/reactor_relay.cpp:592-660 | a cascade of closes changes nobody's view of its path but by ending it |
| RelayPath.ForwardMoves | server/reactor_relay.cpp:1542-1606 | a forwarding pass that succeeded moves the sender as the automaton's forwarding step, and everyone else stays |
| RelayPath.AcceptedMoves | server/reactor_relay.cpp:1416-1424 | READY(1) taken and passed on is the automaton's lobby step |
| RelayPath.BothStarted | server/reactor_relay.cpp:1433-1467 | lifting both players and flushing each buffer once is the automaton's start for both, none of the bytes received before it lost |
| RelayPath.PairedFollows | server/reactor_relay.cpp:1284-1341 | two popped players, matched, told nothing but MATCH_FOUND and read again, have each taken the automaton's pairing step |
| RelayPath.ChosenReads | server/reactor_relay.cpp:926-981 | the first command noted, and whatever authentication without a meta server sets off, is the automaton's first step |
| RelayPath.FedReads | server/reactor_relay.cpp:881-924 | a chunk appended and then read by its stage is the automaton's read of that chunk |
| RelayPath.TracedReads | server/reactor_relay.cpp:881-924 | so a handled chunk leaves every connection on a run of the automaton, with the chunk at the end of what it delivered |
| RelayPath.PlayIsExact | server/reactor_relay.cpp:926-1606 | in every state the relay reaches, the whole stream of the opponent of a forwarding player that behaved is one MATCH_FOUND, READY(1) and whole frames: exactly the player's after JOIN and READY that the match lets through; the unfinished rest is buffered |
| RelayPath.WaitIsExact | server/reactor_relay.cpp:984-1056 | in every state the relay reaches, a waiting player's buffer holds everything it sent behind QUEUE_JOIN that may still matter |
| RelayPath.OpponentCircle | server/reactor_relay.cpp:592-660 | two opponents are each other's only partner, and stay so whatever closes and sends happen |
| RelayLoop.RelayLoop.NeverDoomed | server/reactor_relay.cpp:881-924 | whatever a player that behaves sends next, in whatever stage, is nothing its stage would close it for |
| RelayStages.SteadyMeans | server/reactor_relay.cpp:592-676 | between events a live connection is Queued, in a room, or in a match exactly if the queue, a room slot, or a channel side names it; handshake slots and pending verifications are those of the first two stages; who is not in a room or match yet was sent nothing; player ids are unique |
| RelayStages.RoomMatchIsAgreed | server/reactor_relay.cpp:1199-1221 | in every state between events, the last READY read in its room from whoever is in a room match had a non-zero first byte |
| RelayState.LastReadyIs | server/reactor_relay.cpp:1199-1201 | the readiness that frames leave behind is what the last READY among them says, or the one before if there is none |
| RelaySteps.FeederMutual | server/reactor_relay.cpp:821-826 | whoever feeds a live connection is live and fed by it |
| RelaySteps.PausedWakeups | server/reactor_relay.cpp:835-859 | pausing the feeder of a congested connection keeps every registered interest right |
| RelaySteps.ResumedFully | server/reactor_relay.cpp:592-598 | once nobody is paused on a connection's account nobody's wake-up depends on it |
| RelaySteps.TakenKeeps | server/reactor_relay.cpp:747-771 | buffered bytes leave at most the receiver itself over a limit |
| RelaySteps.TakenInv | server/reactor_relay.cpp:747-786 | within the limits a send keeps every invariant, whole-frame streams included |
| RelayClose.GoneKeeps | server/reactor_relay.cpp:592-633 | marking a connection dead and giving back its buffer, slots, lease, verification and side keeps every invariant but room occupancy |
| RelayClose.GoneCounts | server/ip_admission.h:96-103 | per-address counts, the connection count and the live connections agree after a release |
| RelayClose.BuriedKeeps | server/reactor_relay.cpp:652-660 | taking it out of the queue and counting it out keeps every invariant |
| RelayClose.WithoutMembers | server/reactor_relay.cpp:653-655 | removing one connection from the queue removes only that one |
| RelayMatch.SettledKeeps | server/reactor_relay.cpp:1689-1745 | a decided match is posted at most once, cross-checked when both accounts exist |
| RelayMatch.PeerLostKeeps | server/reactor_relay.cpp:1674-1687 | losing a player decides the match once; without accounts nothing is posted |
| RelayMatch.SavedKeeps | server/reactor_relay.cpp:1747-1769 | the return of a save keeps every match decided once |
| RelayFrame.EvolvesTrans | server/reactor_relay.cpp:592-786 | whatever sends and closes set off only kills connections, vacates slots and extends streams |
| RelayFrame.EvolvesLive | server/reactor_relay.cpp:592-660 | nobody comes back to life, so the cascade is bounded by the live connections |
| RelayStages.IdentifiedKeeps | server/player_session.h:13-25 | a verified player takes its id's lease only if it is free; two live connections never share an id |
| RelayStages.GreetedKeeps | server/reactor_relay.cpp:984-990 | the handshake slot goes back when authentication is over |
| RelayStages.PendingKeeps | server/reactor_relay.cpp:1035-1037 | pending verifications stay live, in stage Auth and within the limit |
| RelayRooms.MatchedKeeps | server/reactor_relay.cpp:1224-1236 | two players in one room, or in none, become the two sides of a new match with every invariant kept |
| RelayRooms.RoomCreatedKeeps | server/reactor_relay.cpp:1131-1143 | a new room under an unused code keeps every invariant |
| RelayRooms.RoomJoinedKeeps | server/reactor_relay.cpp:1151-1169 | a guest in the free slot keeps every invariant |
| RelayRooms.AdmittedKeeps | server/reactor_relay.cpp:679-741 | an arrival within all limits keeps every ledger exact |
| RelayRooms.AdmittedCounts | server/ip_admission.h:81-94 | acquiring both slots counts one more session and handshake for that address only, within both limits |
| RelayRooms.AdmissibleIsExact | server/reactor_relay.cpp:679-741 | an arrival is turned away only if a limit would not hold with it counted |
| RelayRooms.SweptKeeps | server/reactor_relay.cpp:662-676 | after a batch the table is exactly the live connections and every registered match has two live sides or a save in flight that will close the one left |
| RelayHandling.DrainedKeeps | server/reactor_relay.cpp:861-878 | bytes taken by the kernel keep the send ledger exact and the write interest right |
| RelayHandling.ResumedInv | server/reactor_relay.cpp:861-878 | below the mark the partner is read again and no wake-up is lost |
| RelayHandling.SummaryFromIsFirst | server/reactor_relay.cpp:1573-1591 | of the accounts in a buffer the first good one is kept |
| RelayHandling.LobbiedSteady | server/reactor_relay.cpp:1284-1334 | two players popped from the queue stand in the lobby of a new match and nothing else changed |
| RelayLoop.RelayLoop.PausePeerRead | server/reactor_relay.cpp:835-859 | exactly the feeder's read interest changes |
| RelayLoop.RelayLoop.Depart | server/reactor_relay.cpp:592-641 | the whole state after the dying connection has given everything back |
| RelayLoop.RelayLoop.CloseConn | server/reactor_relay.cpp:592-660 | the connection is dead with nothing more sent to it, every invariant holds, and besides it at most its partner was closed; others may have been told in rooms or read again; terminates with the number of live connections |
| RelayLoop.RelayLoop.TellRoom | server/reactor_relay.cpp:624-638 | the partner left in a room, the only one who may be closed over it, has to get ready again and, unless the send fails or it dies, its stream grows by exactly ROOM_INFO(gone); a room goes with its last occupant |
| RelayLoop.RelayLoop.TellChannel | server/reactor_relay.cpp:639-651 | a match that lost a side ends without sides or with a save that will close the one left; nobody but its sides is closed |
| RelayLoop.RelayLoop.OnChannelPeerLost | server/reactor_relay.cpp:1674-1687 | the verdict is by cross-check, by the one account, or none |
| RelayLoop.RelayLoop.CloseChannelSurvivor | server/reactor_relay.cpp:1661-1672 | afterwards the match has no side left, and nobody but its sides was closed |
| RelayLoop.RelayLoop.QueueSend | server/reactor_relay.cpp:747-786 | on success nobody died and exactly the data was appended to exactly that stream; on failure, which is counted, nothing happened or the receiver is gone, and with it at most its partner |
| RelayLoop.RelayLoop.Congest | server/reactor_relay.cpp:784-786 | above the high-water mark, and only then, the feeder is paused |
| RelayLoop.RelayLoop.RejectConn | server/reactor_relay.cpp:804-815 | the kernel was handed a prefix of the pending bytes with the reject frame behind them, the connection is closed, and every ledger is exact |
| RelayLoop.RelayLoop.OnTimeout | server/reactor_relay.cpp:1609-1656 | nothing happens exactly if the connection is queued, authenticating, or paused on account of a partner that forwards and is read itself; otherwise it is closed, and with it at most its partner |
| RelayLoop.RelayLoop.OnWritable | server/reactor_relay.cpp:861-878 | with nothing pending nothing happens; the connection is closed only if the send fails; otherwise its pending bytes lost exactly the prefix the kernel took, and its feeder is read again exactly below the mark |
| RelayLoop.RelayLoop.OnReadable | server/reactor_relay.cpp:881-924 | a closed peer, a rate violation, an overfull buffer and bytes the stage does not put up with end the connection; behind the first command it and its partner are closed for nothing else but a failed send; it moves as `QueuePath` reads that chunk, everyone else by its own events |
| RelayLoop.RelayLoop.ForwardScreened | server/reactor_relay.cpp:1505-1540 | on success the opponent's stream grew by exactly the filtered bytes and the right rest is buffered |
| RelayLoop.RelayLoop.ForwardRanked | server/reactor_relay.cpp:1560-1604 | the same for a ranked match, with the first good account kept |
| RelayLoop.RelayLoop.OnForward | server/reactor_relay.cpp:1542-1606 | on success the opponent got exactly the filtered bytes, the account is kept and two accounts are decided; on failure the opponent, or the sender left alone, is closed; without a failed send nobody is |
| RelayLoop.RelayLoop.FinalizeRanked | server/reactor_relay.cpp:1689-1707 | both accounts in and nothing decided yet: decided by cross-check, otherwise nothing changes |
| RelayLoop.RelayLoop.LobbyLoop | server/reactor_relay.cpp:1380-1425 | the reading loop stops at exactly the first decision, game frame or corruption |
| RelayLoop.RelayLoop.AcceptMatch | server/reactor_relay.cpp:1416-1424 | READY(1) is noted and is exactly what the opponent's stream grows by |
| RelayLoop.RelayLoop.OnLobby | server/reactor_relay.cpp:1370-1429 | a refusal or a corrupt stream ends the connection; an accepted READY is noted, its rest is kept and the opponent gets READY(1) and nothing else, or is closed; two ready players are not kept waiting; without refusal or failed send nobody is closed |
| RelayLoop.RelayLoop.BeginForwarding | server/reactor_relay.cpp:1433-1467 | both sides, if still there, are forwarding, and each has taken the automaton's start: every byte it had sent before is forwarded or kept; nobody is closed unless a send fails, and then only the two |
| RelayLoop.RelayLoop.StartIfBothReady | server/reactor_relay.cpp:1428-1428 | two players who are both ready are not kept in the lobby |
| RelayLoop.RelayLoop.StartIfRoomReady | server/reactor_relay.cpp:1219-1222 | two ready occupants forward to each other or, if a send fails, are closed; otherwise nothing changes |
| RelayLoop.RelayLoop.Dispatch | server/reactor_relay.cpp:914-923 | bytes the stage's reader does not put up with end the connection; other bytes move it as `QueuePath` reads them and, behind the first command, close nobody unless a send fails; a waiting stage consumes nothing |
| RelayLoop.RelayLoop.CancelScan | server/reactor_relay.cpp:1263-1282 | a queued connection stays exactly if its stream is sound and holds no QUEUE_CANCEL |
| RelayLoop.RelayLoop.OnQueued | server/reactor_relay.cpp:1263-1282 | nothing is consumed; the connection is closed exactly if it cancelled or its stream is corrupt |
| RelayLoop.RelayLoop.EnterQueue | server/reactor_relay.cpp:1245-1259 | a cancellation already received counts before pairing; alone, the connection is simply queued; with somebody waiting the two are the players of a new match, the waiting one first |
| RelayLoop.RelayLoop.TryPair | server/reactor_relay.cpp:1284-1292 | one alone stays untouched; two are matched with each other, the first as player 1, with every byte they had sent kept or read by the lobby |
| RelayLoop.RelayLoop.MakeChannel | server/reactor_relay.cpp:1305-1329 | the whole state with the new match; ranked exactly if there is a meta server and both are known |
| RelayLoop.RelayLoop.PairUp | server/reactor_relay.cpp:1331-1341 | each player is in the lobby with its buffer kept and gets exactly its own MATCH_FOUND of one match, the first as player 1, or, if a send fails, both are closed |
| RelayLoop.RelayLoop.Announce | server/reactor_relay.cpp:1351-1368 | both notices of a match carry its seed and id, each the player's own number and icon first |
| RelayLoop.RelayLoop.StartMatch | server/reactor_relay.cpp:1331-1349 | the two are rivals in the new match, or gone, and what each had already sent was read as the automaton's pairing step reads it |
| RelayLoop.RelayLoop.OpenMatch | server/reactor_relay.cpp:1224-1242 | host and guest leave the room for a match and are told as players 1 and 2 of it, or, if a send fails, both are closed |
| RelayLoop.RelayLoop.FirstLoop | server/reactor_relay.cpp:926-981 | the first command decides; malformed joins and unknown frames are skipped, frames behind it printed again |
| RelayLoop.RelayLoop.OnFirstFrame | server/reactor_relay.cpp:926-981 | corruption and cancellation close; an unfinished command waits; otherwise the command and its code are noted and every later byte is kept, as the automaton's first step does |
| RelayLoop.RelayLoop.BeginAuth | server/reactor_relay.cpp:999-1056 | an empty token or a full backlog closes; with a meta server the connection waits with its buffer untouched; without one its command takes effect |
| RelayLoop.RelayLoop.ResumeAuth | server/reactor_relay.cpp:1058-1091 | a failed verification and an id that is taken close the connection; a free id is leased and the command takes effect |
| RelayLoop.RelayLoop.Identify | server/player_session.h:13-25 | the lease is taken exactly if the id is positive and free |
| RelayLoop.RelayLoop.AfterAuth | server/reactor_relay.cpp:984-996 | the handshake slot goes back and the first command takes effect: queued, paired with whoever waits, host of a new room, or guest of the room of its code |
| RelayLoop.RelayLoop.GenerateCode | server/reactor_relay.cpp:1117-1129 | a code that is given out is five characters of the code alphabet and not in use |
| RelayLoop.RelayLoop.RoomCreate | server/reactor_relay.cpp:1131-1149 | if the connection survives in a room, it is the host of the new one; every other connection moves by its own events only |
| RelayLoop.RelayLoop.RoomJoin | server/reactor_relay.cpp:1151-1187 | an unknown code and a full room end the connection, which, unless a send failed, was told ROOM_INFO(not found) or ROOM_INFO(full), as far as the kernel took it, and nothing else; one that survives in a room is the guest of the room of its code |
| RelayLoop.RelayLoop.TellBoth | server/reactor_relay.cpp:1171-1173 | unless a send fails both streams grow by exactly ROOM_INFO(waiting, 2) |
| RelayLoop.RelayLoop.OpenRoomFor | server/reactor_relay.cpp:1136-1146 | the host is in the new room and, unless the send fails or it dies, its stream grows by exactly ROOM_INFO(waiting, 1) |
| RelayLoop.RelayLoop.RoomLoop | server/reactor_relay.cpp:1197-1219 | leaving is noticed wherever it stands; otherwise the frames read are noted, and as long as everybody in the room stays, the player is ready exactly if its last READY says so, or as before without one, and the other's readiness is untouched; unless a send fails the other occupant gets exactly the READY and CHAT frames; nobody outside the room is closed, and without leaving or a failed send nobody at all |
| RelayLoop.RelayLoop.OnRoom | server/reactor_relay.cpp:1189-1222 | a corrupt stream and ROOM_LEAVE end the connection; otherwise, with everybody in the room still there, both forward exactly if the other slot is taken by somebody ready and the last READY in the frames (or the old flag) says ready, and both stay in the room otherwise; unless a send fails nobody is closed, and the other occupant gets exactly the READY and CHAT frames if no match starts |
| RelayLoop.RelayLoop.RelayTells | server/reactor_relay.cpp:1199-1216 | whoever reads what is passed on hears every chat line in order, and the same readiness as the relay has noted |
| RelayLoop.RelayLoop.OnResultSaved | server/reactor_relay.cpp:1747-1769 | a survivor kept for the result, and nobody but the sides of the match, is closed; otherwise only the save is marked done |
| RelayLoop.RelayLoop.OnAccept | server/reactor_relay.cpp:679-741 | exactly the arrivals below all limits that register are admitted, in order |
| RelayLoop.RelayLoop.Sweep | server/reactor_relay.cpp:662-676 | exactly the dead connections and finished matches are dropped, with the leases only they held |
| RelayLoop.RelayLoop.Handle | server/reactor_relay.cpp:453-503 | one event: a chunk moves its connection as `QueuePath` reads it, everything else moves connections only by the automaton's own events; behind the first command at most the connection and its partner, or the sides of the match, are closed, and only for a cause |
| RelayLoop.RelayLoop.Run | server/reactor_relay.cpp:453-503 | every invariant holds after every script of events, and every connection is on a run of `QueuePath` |
| TimerQueue.TimerQueue.Arm | server/timer_queue.h:45-49 | the token's deadline, and no other, is set |
| TimerQueue.TimerQueue.Cancel | server/timer_queue.h:52-54 | the token's deadline, and no other, is withdrawn |
| TimerQueue.TimerQueue.PruneStale | server/timer_queue.h:104-111 | outdated entries go, deadlines stay, and the top of the heap is the earliest deadline |
| TimerQueue.TimerQueue.TimeoutMs | server/timer_queue.h:58-67 | -1 exactly if nothing is armed, else the whole milliseconds to the earliest deadline, between 0 and the largest value |
| TimerQueue.TimerQueue.Expired | server/timer_queue.h:71-82 | appends exactly the tokens due, once each, by rising deadline, and disarms exactly those, reused tokens included |
| TimerQueue.TimerQueue.Empty | server/timer_queue.h:84-87 | true exactly if nothing is armed |
| TimerQueue.NeverOversleeps | server/timer_queue.h:58-67 | sleeping for the answer passes no deadline that lies ahead and, below the largest answer, leaves less than one more millisecond of the earliest |
| TimerQueue.FiresOnce | server/timer_queue.h:71-82 | a second call at the same moment finds nothing, and later deadlines are all still there |
| SimGrid.SimGrid.ClearFullRows | src/sim_grid.h:52-68 | in place: full rows deleted, order kept, blank rows on top, and the number of full rows returned |
| SimGrid.SimGrid.IsRowFull | src/sim_grid.h:74-84 | true exactly if no cell of the row is empty |
| SimGrid.SimGrid.MoveRowDown | src/sim_grid.h:94-101 | exactly that row moves, leaving a blank one |
| SimGrid.SimGrid.RaiseGarbage | src/sim_game.cpp:291-314 | in place: the board moves up and garbage rows with one common hole come in below |
| SimGrid.ClearedIsClear | src/sim_grid.h:52-68 | after clearing the board has its shape and no full row |
| SimGrid.ClearedCollapses | src/sim_grid.h:52-68 | a row that is not full comes down by the number of full rows below it, and as many blank rows come in on top as were full |
| SimGrid.NothingToClear | src/sim_grid.h:52-68 | a board without full rows is left as it is |
| SimGrid.FullsUpdate | src/sim_game.cpp:249-252 | writing in one row makes at most one more row full |
| SimBlock.TilesAreFour | src/sim_blocks.h:9-106 | every piece in every rotation is four different cells within a 4 x 4 box at its offset |
| Rng.Below | core/rng.h:22-24 | a draw is below its bound |
| SimRules.LandingIsLast | src/sim_game.cpp:148-159 | a dropped piece passes only rows where it fits and stops where the next one does not |
| SimRules.LockWritesFourEmptyCells | src/sim_game.cpp:245-252 | locking a fitting piece writes four empty cells of the board and no other |
| SimRules.StampFulls | src/sim_game.cpp:249-252 | a lock completes at most as many rows as it writes cells |
| SimRules.LockedOk | src/sim_game.cpp:245-289 | every lock, wherever the piece is, keeps colours, bag, preview, level and pace in order, leaves no full row and clears between 0 and 4 rows, as many as were full |
| SimRules.ScoredPaced | src/sim_game.cpp:329-368 | level is min(20, lines/10 + 1) and the pace 30 - (level-1)*27/19 after every update |
| SimRules.LockConserves | src/sim_game.cpp:266-285 | waiting plus taken garbage is unchanged by a lock, what is taken is what is recorded as received, and attack never shrinks |
| SimRules.SubmitConserves | src/sim_game.cpp:63-90 | the same for a whole input, for any state and mask |
| SimRules.MovesOk | src/sim_game.cpp:103-198 | every frame-level move keeps the game in order, wherever it starts |
| SimRules.SubmittedOk | src/sim_game.cpp:63-90 | so does a whole input, for every game in order and every mask |
| SimRules.TickedOk | src/sim_game.cpp:92-101 | so does gravity |
| Steering.InputObeys | src/sim_game.cpp:63-90 | LEFT, RIGHT, DOWN, ROTATE and DROP, in this order and each if held: the cells of the piece move one column or row, or a quarter turn clockwise in their square, if all the cells there are free, and nothing else changes; a drop ends on the last free row and locks |
| Steering.RotatedCells | src/sim_blocks.h:9-106 | the next rotation of a piece is its cells turned a quarter clockwise in its square |
| Steering.OnceInFour | src/sim_game.cpp:74-84 | with DOWN held the piece is pressed one row down in every fourth tick only |
| Steering.FallsAtPace | src/sim_game.cpp:92-101 | left alone, a piece hangs still until the pace is reached, and falls one row, or locks, in just that tick |
| Steering.PaceQuickens | src/sim_game.cpp:329-368 | from 30 ticks a row to 3, never slower with more rows cleared |
| Locking.LockedLocks | src/sim_game.cpp:245-314 | every lock writes the piece's cells, brings down what is above full rows, pays rows, points times level and attack, brings in the first of the preview and refills it, then takes waiting garbage in from below, and ends the game exactly if the entering piece has no room |
| Locking.PointsTable | src/sim_game.cpp:329-352 | a T-spin pays 400 and 400 more for each row, otherwise the n-th row of a lock pays n hundred; a T-spin always pays more |
| Locking.AttackTable | src/sim_game.cpp:200-217 | one row sends nothing, two one, three two, four four; with a T-spin each row sends two |
| Locking.TSpinMeans | src/sim_game.cpp:219-243 | a T-spin is a lock of the T, turned last, with at least three of the four cells diagonal to its centre blocked |
| Locking.CentreOfT | src/sim_game.cpp:219-243 | that centre is the cell of the T which the other three adjoin |
| Misfit.DropIsClean | src/sim_game.cpp:148-159 | a hard drop writes four different empty cells of the board exactly if the piece fits where it starts or one row higher |
| Misfit.InputDropIsClean | src/sim_game.cpp:63-90 | the same for the drop of a whole input, from where its steering leaves the piece |
| Misfit.LowerIsClean | src/sim_game.cpp:92-146 | gravity and the soft drop lock a blocked piece into four different empty cells exactly if it fits where it is |
| Misfit.LockLeavesMisfit | src/sim_game.cpp:245-289 | a lock leaves a piece in play that does not fit exactly if no garbage waits and the piece fits before the full rows are cleared and not afterwards |
| Misfit.TightMisfits | src/sim_game.cpp:245-289 | such a lock, by a piece that fits: afterwards a hard drop aims one row above the board |
| Misfit.AboveTheBoard | src/sim_game.cpp:249-252 | the first cell written there is at row -1 |
| Misfit.TightGameIsTight | src/sim_game.cpp:245-289 | a concrete game in order of that kind |
| SevenBag.DealtSevens | src/sim_game.cpp:34-46 | whichever piece is drawn, what was dealt and what is left in the bag stay whole sevens of all pieces |
| SevenBag.SevensAre | src/sim_game.cpp:34-54 | then every seven of the pieces dealt is every piece once |
| SevenBag.PlayedInSevens | src/sim_game.cpp:8-54 | over every run of placements and garbage from a new game the pieces dealt come in sevens of all pieces, and the piece in play and the preview are the last ones dealt |
| SevenBag.FoughtInSevens | src/main.cpp:1374-1402 | the same on both boards at every tick of every duel |
| SimGame.SimGame.LockBlock | src/sim_game.cpp:245-289 | the whole state after a lock, wherever the piece is, which is a lock as `Locking.LockedLocks` states it |
| SimGame.SimGame.MoveBlockDrop | src/sim_game.cpp:148-159 | down to the row above the first one where the piece does not fit, wherever it starts, and locked there |
| SimGame.SimGame.HardDrop | src/sim_game.cpp:525-530 | the loop ends at the landing, or one row up if the piece never fitted |
| SimGame.SimGame.IsTSpinLock | src/sim_game.cpp:219-243 | exactly the T piece, rotated last, with three blocked corners |
| SimGame.SimGame.GetRandomBlock | src/sim_game.cpp:34-46 | one piece leaves the bag, refilled if it was empty |
| SimGame.SimGame.UpdateScore | src/sim_game.cpp:329-368 | the whole state after scoring |
| SimGame.SimGame.SubmitInput | src/sim_game.cpp:63-90 | every input to a game in order that is not over does what its keys say, as `Steering.InputObeys` states over cells; afterwards the game is in order |
| SimGame.SimGame.Tick | src/sim_game.cpp:92-101 | gravity counts up to the pace and lets the piece fall one row, or locks it; the game stays in order |
| SimGame.SimGame.ApplyPlacement | src/sim_game.cpp:505-538 | succeeds exactly for a legal placement, returns the rows it cleared, and changes nothing otherwise |
| SimGame.SimGame.LegalPlacements | src/sim_game.cpp:470-503 | lists exactly the legal placements with columns 0 to 9, by rotation and then column |
| SimGame.PlacedOk | src/sim_game.cpp:505-538 | a placement keeps the game in order and lands on the last row before the first blocked one |
| SimGame.PlayedOk | src/sim_game.cpp:505-538 | over every run of placements and incoming garbage the game stays in order and all garbage waits or has come in |
| SimGame.UnlistedPlacement | src/sim_game.h:35-37 | on every untouched board with the second piece in play, placing it turned once at column -1 is legal and no list contains it |
| SimGame.NewGameOk | src/sim_game.cpp:8-32 | a new game is in order and its board untouched |
| Bot.EvalBoard | bot/placement.cpp:91-112 | the score is the weighted sum of heights, cleared rows, holes and bumps |
| Bot.SumsCount | bot/placement.cpp:91-109 | the sum of heights is the number of cells settled or under a settled one, the number of holes that of the others among these |
| Bot.WeighPrefers | bot/placement.cpp:110-111 | lower, flatter, with fewer holes and more rows cleared never scores less |
| Bot.HeuristicPlacement | bot/placement.cpp:115-132 | succeeds exactly if a placement is listed and returns the first that scores highest |
| Bot.FallbackPlacement | bot/placement.cpp:39-54 | succeeds exactly if a placement is listed and returns the leftmost, least rotated |
| Duel.AdvancedSwaps | src/main.cpp:1382-1402 | seen from the other side, a tick of both boards is the same tick |
| Duel.AdvancedPlays | src/main.cpp:1374-1402 | in a tick each board obeys its own input, then gravity, and each then has waiting what the other has newly sent |
| Duel.NothingSent | src/main.cpp:1374-1402 | as long as nobody sends garbage, each board is what its own inputs alone make of it |
| Duel.MirrorsAgree | src/main.cpp:1374-1420 | after the same inputs each client holds the other's boards and any exchanged hash agrees |
| Duel.GarbageBalances | src/main.cpp:1389-1399 | at every tick what waits on a board plus what came in there is what the other board sent |
| Duel.FoughtOk | src/main.cpp:1374-1402 | at every tick, whatever the inputs, both games are in order |
| Duel.StopTogether | src/main.cpp:1368-1424 | clients that stop when a game is over stop at the same tick |
| Lockstep.Client.SendInput | net/session.cpp:128-137 | an input for the next tick, and no other, is sent |
| Lockstep.Client.Heartbeat | net/session.cpp:859-883 | an empty input for the next tick, never before the first own input; what was sent stays one mask per tick |
| Lockstep.Client.SendTick | src/main.cpp:1305-1326 | after catching up with the heartbeat exactly one input for the next tick is sent, none once a game is over |
| Lockstep.Client.CatchUp | src/main.cpp:1316-1322 | own inputs again cover every tick that was sent |
| Lockstep.Client.HandleInput | net/session.cpp:1041-1066 | masks known before stay; every new one is the frame's for its tick, within 4096 of the latest tick known before; every such tick is known afterwards unless the buffer is full at 8192; the latest tick is the greatest of the old one and those that count |
| Lockstep.Client.Receive | net/session.cpp:1041-1066 | one input is stored exactly if it is in the window, unknown and there is room, and moves the latest tick likewise; what is known of the opponent is what it sent, however late or often it arrives |
| Lockstep.Client.Simulate | src/main.cpp:1362-1427 | simulates exactly up to the safe tick, the first unknown input or the end of a game, and the boards are the duel of both streams |
| Lockstep.Round | src/main.cpp:1290-1427 | in every interleaving equal progress means mirrored boards |
| Lockstep.PairedMirrors | src/main.cpp:1404-1420 | for any hash of a board the combined hashes of equal progress agree |
| Lockstep.PairedStop | src/main.cpp:1368-1424 | two clients that both see the game over have simulated equally far |
| MatchOutcome.SummaryRoundTrip | net/session.cpp:190-205 | the relay reads back exactly the account a client sent |
| MatchOutcome.CrossCheckIsDeserved | server/reactor_relay.cpp:1689-1707 | two honest accounts yield a winner exactly if one board topped out: the side whose board survived |
| MatchOutcome.CrossCheckIsAgreed | server/reactor_relay.cpp:1689-1703 | for any two accounts: the cross-check names whoever alone claims the win in matching numbers, and nobody otherwise, exactly unless the numbers match and the flags are odd |
| MatchOutcome.ClaimOverruled | server/reactor_relay.cpp:1693-1699 | an input: only A claims the win, with a flag of 2, and B is named |
| MatchOutcome.PostedIsAgreed | server/reactor_relay.cpp:1689-1707 | a post on two accounts with flags 0 or 1 names the winner they agree on |
| MatchOutcome.ForfeitIsDeserved | server/reactor_relay.cpp:1709-1723 | one honest account alone yields the same winner |
| MatchOutcome.HonestMatch | src/main.cpp:2785-2809 | end to end: from any round of two clients, over the wire, to that verdict; each account read tells its own board's numbers first |
| RoomHandover.OneReaderPerSocket | server/room.cpp:364-423 | a room is pumped at most once, by threads that are in no read loop, each in one match only |
| RoomHandover.ProceededKeeps | server/room.cpp:364-423 | the starter proceeds only when the other thread is out, and then the room is gone |
| RoomHandover.ObservedKeeps | server/room.cpp:326-350 | there is one starter per started room, and a handed-over thread never reads again |
| RoomHandover.ReadyWilling | server/room.cpp:280-291 | after a READY is noted, each taken slot is ready exactly if its own thread last said so; nobody else's word changes |
| RoomHandover.ObservedWilling | server/room.cpp:326-350 | at the state check a room starts exactly if it had not and both slots are taken by threads whose last word was ready |
| RoomHandover.DepartedWilling | server/room.cpp:440-473 | an empty slot is not ready, and leaving starts nothing |
| RoomHandover.DepartedKeeps | server/room.cpp:440-473 | leaving takes a thread out of its own room only, and the room with its last occupant |
| RoomHandover.JoinedKeeps | server/room.cpp:154-205 | joining takes the free slot of a room that has not started |
| RoomHandover.SettledSends | server/room.cpp:90-106 | whoever holds a room's send gate adds the newest notice of that room |
| RoomHandover.CheckedKeeps | server/room.cpp:90-106 | the gate is taken only for a notice of the current version |
| RoomHandover.GreetedServed | server/room.cpp:192-221 | a guest whose notice is outdated is forgotten, its slot kept, and by then the host is gone; no other room is touched |
| RoomHandover.DepartedServed | server/room.cpp:440-473 | leaving keeps every slot that is taken served, and abandons none |
| RoomHandover.ForgottenGuest | server/room.cpp:154-221 | a concrete interleaving after which a room keeps a guest no thread serves |
| RoomHandover.RoomRegistry.HandleCreate | server/room.cpp:116-152 | the whole state after a room is created |
| RoomHandover.RoomRegistry.HandleJoin | server/room.cpp:154-205 | the whole state after a guest has entered, holding the gate |
| RoomHandover.RoomRegistry.Greet | server/room.cpp:206-221 | both are greeted under the gate, or the guest's thread ends with its slot still taken, if the room changed in between |
| RoomHandover.RoomRegistry.ObserveRoom | server/room.cpp:326-350 | follow a started match, go on, or start one: exactly if both slots are taken by threads whose last word was ready |
| RoomHandover.RoomRegistry.ExitRoom | server/room.cpp:440-473 | the whole state after the exit section |
| RoomHandover.RoomRegistry.ProceedStarter | server/room.cpp:364-423 | the whole state after the starter's decision |
| RoomHandover.RoomRegistry.Take | server/room.cpp:154-476 | one section of one thread: a room goes to started only if both occupants have last said ready, and only a room that had started is pumped, by its two owners; a READY changes only its own thread's word; a room is abandoned exactly when the entry check of its guest finds it changed |
| RoomHandover.RoomRegistry.Run | server/room.cpp:224-476 | all of it in every interleaving: every match was agreed on by both when it started, and an abandoned room stays as it is |
| ThreadedRelay.AtMostOnePost | server/relay.cpp:127-282 | at most one post per match, and never a forfeit beside two accounts |
| ThreadedRelay.Channel.CollectSummary | server/relay.cpp:541-546 | the first account of each side is kept |
| ThreadedRelay.Channel.ClaimRanked | server/relay.cpp:129-135 | the outcome is claimed once, and only with both accounts |
| ThreadedRelay.Channel.PostCrossCheck | server/relay.cpp:136-195 | the one post is the cross-check of both accounts |
| ThreadedRelay.Channel.CompleteForwarder | server/relay.cpp:303-332 | exactly the last forwarder out settles the match |
| ThreadedRelay.Channel.SettleMatch | server/relay.cpp:202-244 | nothing, a cross-check, no post, or a forfeit, by the accounts there are |
| ThreadedRelay.Channel.PostDecision | server/relay.cpp:246-282 | a forfeit is posted only when exactly one account will ever exist |
| ThreadedRelay.Channel.Run | server/relay.cpp:295-332 | all of it in every interleaving of the two forwarders |
| Elo.UpdateBounds | meta/elo.h:44-58 | the winner never loses points, the loser gains none and stays at or above 0, neither moves by more than K |
| Elo.EqualRatings | meta/elo.h:26-58 | between equals half of K changes hands, down to the floor |
| Elo.RoundNearest | meta/elo.h:49-52 | a rounded change is within one half of the exact one |
| Elo.StrongerOpponent | meta/elo.h:44-58 | beating a stronger opponent never pays less |
| Elo.WeakerOpponent | meta/elo.h:44-58 | losing to a weaker opponent never costs less |
| Elo.UpsetPaysMore | meta/elo.h:26-58 | an underdog who wins gains at least what the favourite would have gained |
| Ledger.SaveKeepsBooks | meta/database.cpp:450-632 | a new match keeps the books exactly if nobody beats himself in it |
| Ledger.SaveRates | meta/database.cpp:545-607 | in a decided match of two players the winner, whichever side, does not fall, the loser does not rise, each moves by at most its K and counts one win or loss; a draw moves nobody; no third account changes; the answer is each side's own rating before and after |
| Ledger.SaveKeepsEven | meta/database.cpp:582-597 | every match, whoever plays it, keeps the currency equation exactly as it was |
| Ledger.EvenIsSoldOnce | meta/database.cpp:371-420 | where the books are kept, everybody's currency is earnings less the prices of the icons owned exactly if no icon was sold to anybody twice |
| Ledger.SoldKeepsBooks | meta/database.cpp:371-420 | an affordable sale keeps the books, and keeps the currency equation exactly if the icon is not owned yet |
| Ledger.ChargedTwice | meta/database.cpp:165-191 | an input at which a second sale of an owned icon breaks the currency equation |
| Ledger.JoinedKeepsBooks | meta/database.cpp:313-353 | a new account starts balanced and disturbs no other |
| Ledger.Database.RegisterGuest | meta/database.cpp:313-353 | a new id with an empty account, all other accounts as before, or nothing when the token is taken |
| Ledger.Database.PurchaseIcon | meta/database.cpp:371-420 | exactly when the answer is unknown icon, unknown token, already owned or unaffordable, given what the reads found; the sale is in the books exactly if it was committed, and then the answer is bought or an error after the commit; the currency equation survives exactly if nothing was committed for an icon already owned |
| Ledger.Database.SelectIcon | meta/database.cpp:423-446 | exactly when a selection is refused as unknown icon, unknown user or not owned, given what the reads found; the choice is in the books exactly if it was written, and only an owned icon is ever selected |
| Ledger.Database.OwnsIcon | meta/database.cpp:165-178 | the default icon is owned without a read; any other exactly if the read succeeds and finds it |
| Ledger.Database.SaveMatch | meta/database.cpp:450-632 | a recorded match is answered from its record and changes nothing, a failure changes nothing, a success records it with its result: ratings move as `Ledger.SaveRates` says, for either side winning |
| Ledger.Database.Record | meta/database.cpp:496-632 | the transaction happens as a whole or not at all |
| Ledger.Database.PostMatch | meta/api_server.cpp:325-375 | behind the guard the books stay balanced, recorded matches never change, and ratings move as `Ledger.SaveRates` says |
| Ledger.Database.Run | meta/database.cpp:313-632 | over any sequence of calls, reads and statements failing anywhere, rating points are the sum of their changes and at least 0, experience follows wins and losses, currency is at least 0 and what was earned less what was charged, selected icons are owned; currency is earnings less the prices of owned icons exactly if no icon was sold again |
| Atlas.ApartIsDisjoint | renderer/text_gl.cpp:127-164 | rectangles that are apart share no pixel and do not touch, not even diagonally |
| Atlas.Placed | renderer/text_gl.cpp:127-164 | a rectangle at the pen is apart from everything placed since the last wipe |
| Atlas.Wrapped | renderer/text_gl.cpp:132-136 | a new shelf lies below everything placed |
| Atlas.Atlas.PackGlyph | renderer/text_gl.cpp:127-164 | placed on this shelf, the next, or in a wiped atlas exactly if there is room nowhere; refused exactly if larger than the atlas |
| Atlas.Atlas.GlyphFor | renderer/text_gl.cpp:166-215 | a cached glyph is returned as it was; a new one is placed exactly if it has a bitmap that fits |
| Atlas.Atlas.Draw | renderer/text_gl.cpp:127-225 | over any requests every cached place is a rectangle placed since the last wipe, of the glyph's size |

## Left out

- Sockets, epoll and IOCP, HTTP, SQLite itself, schema migration, rendering, audio, GUI, settings, logging, statistics lines and Python training: I/O or foreign libraries.
- Sharding (`hand_off`, `drain_inbox`): the loop owns every connection; the wake-up invariant is a single-loop claim.
- Deadlines of the relay's timers: a timeout may strike any live connection at any time, and resuming a paused peer does not re-arm anything; `TimerQueue` is modelled by itself.
- The byte-rate window: whether a chunk comes too fast is a nondeterministic flag of the event.
- MATCH_RESULT bytes: they bypass the send buffer, so stream statements are about everything else.
- The relay's random seeds, match ids, icons, user names and ratings: the seed, icons and id of a match are arbitrary, the same for both players.
- Guards that cannot fire are asserted instead of branched on, such as a dead connection at the head of the queue.
- RelayLoop.RelayLoop.CloseConn: does not say whether the partner's notice went out, because the send may fail and its result is ignored by the program.
- RelayLoop.RelayLoop.OnFirstFrame: does not say whom the first command and authentication may close; they close the connection, and through a match or a room the players it meets there.
- RelayLoop.RelayLoop.CloseChannelSurvivor: does not say that a survivor in the lobby was sent READY(0); it is closed next, whether the send succeeds or not.
- RelayPath.PlayIsExact: is about players matched through the queue; for players matched in a room, `RoomLoop`, `OpenMatch` and `OnForward` state what is passed on call by call.
- Moving and freeing objects: connections, rooms and channels stay valid under every reference.
- SimGrid.SimGrid: cells outside the array read as occupied and are not written; the memory the program would overwrite there is not modelled.
- The generator, the piece and the two simulated games of a lockstep client are values, as the program copies them; aliasing between copies is not modelled.
- The landing preview (ghost block), event flags for sound and shaking, input repeat, and the state hash's bytes; hash agreement is proved for every hash function.
- `expand_placement` and `observe`: the first depends on unobstructed sliding, the second only converts.
- Lockstep progress, countdown, round restarts and the wrap of tick numbers; the tick block is atomic against the heartbeat.
- Lockstep.Client.HandleInput: tick numbers do not wrap at 32 bits.
- Bot.EvalBoard: exact real arithmetic instead of doubles.
- Bot.HeuristicPlacement: scores are those reals, so placements that only rounding makes equal, or tells apart, are not covered.
- Elo: the expected score is any curve with values in [0, 1], one half between equals, that rises with the own rating and falls with the opponent's.
- Ledger.Database.RegisterGuest: the default icon's ownership row may be missing, as in the program; the default icon needs none.
- A ROLLBACK that fails: a transaction that does not commit leaves no trace.
- Room shutdown, deadlines and chat of the threaded rooms: only entering, readiness, leaving, starting and version-checked notices are modelled.
- ThreadedRelay.Channel.CompleteForwarder: the completion's three atomic steps are one; the order in which they become visible is not modelled.
- The screening loops of the threaded relay: the same policy as the event loop's, which is modelled.
- Liveness: nothing is said about when a waiting thread, verification or save returns.
