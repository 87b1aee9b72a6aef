/** One TCP flow as the tables hold it: its two byte movers, and when it ends. */
module TcpFlows {
  import opened Bytes
  import opened Options
  import opened Runs
  import opened UdpFlows
  import Down = TcpDownload
  import Up = TcpUpload

  const HANDSHAKE_TIMEOUT_MS := 30_000

  /** The states of a socket as far as the code tells them apart: SynReceived and SynSent are the
      handshake, and every state from Established to TimeWait counts as open. */
  datatype State = Listen | Closed | Handshake | Open

  datatype TcpSocket = TcpSocket(state: State, active: bool, mayRecv: bool, maySend: bool)

  /** `closed` is the flag as the loop last saw it. */
  datatype TcpFlow = TcpFlow(connectTo: string, started: nat, connected: bool, closed: bool, down: Down.Flow, up: Up.Flow)

  function NewFlow(name: string, started: nat): TcpFlow {
    TcpFlow(name, started, false, false, Down.Connected(0, false), Up.CONNECTED)
  }

  /** Whether the application's side is over, or never came about. */
  predicate Finished(s: TcpSocket, age: nat) {
    match s.state
    case Closed => true
    case Handshake => age > HANDSHAKE_TIMEOUT_MS
    case _ => !s.mayRecv && !s.maySend
  }

  /** What befalls a flow from one turn to the next: the outcome of its connection attempt; what its threads, the
      application and the stack do between the turns; and what the threads and the socket do while the loop
      drains the socket and fills it. */
  datatype Work = Work(
    now: nat,
    outcome: Connect,
    upBetween: seq<Up.Event>,
    writing: nat -> seq<Up.Event>,
    receiving: nat -> nat,
    downBetween: seq<Down.Event>,
    reading: nat -> seq<Down.Event>,
    sending: nat -> nat)

  /** The upload half of a connected flow's turn. */
  function Uploaded(f: Up.Flow, w: Work): Up.Flow
    requires Up.Inv(f) && f.inTable && f.place.Outside?
  {
    Up.ActsKeep(f, w.upBetween);
    Up.Call(Up.ActsAll(f, w.upBetween), w.writing, w.receiving)
  }

  /** The download half. */
  function Downloaded(f: Down.Flow, w: Work): Down.Flow
    requires Down.Inv(f) && f.place.Outside?
  {
    Down.ReadsKeep(f, w.downBetween);
    Down.Call(Down.ReadsAll(f, w.downBetween), w.reading, w.sending)
  }

  /** One flow's part of a turn. A connected flow's bytes move both ways; the flow ends when the connection is
      refused, the upload gives up, or the socket is finished. */
  function Served(f: TcpFlow, w: Work, s: TcpSocket): TcpFlow
    requires Carried(f)
  {
    var connected := f.connected || w.outcome.Connected?;
    var up := if connected then Uploaded(f.up, w) else f.up;
    var down := if connected then Downloaded(f.down, w) else f.down;
    var refused := !f.connected && w.outcome.Refused?;
    var age := if w.now >= f.started then w.now - f.started else 0;
    f.(connected := connected, down := down, up := up, closed := f.closed || refused || up.closed || Finished(s, age))
  }

  /** Both byte movers are in order and between two calls. */
  ghost predicate Carried(f: TcpFlow) {
    && Down.Inv(f.down) && f.down.place.Outside?
    && Up.Inv(f.up) && f.up.inTable && f.up.place.Outside?
  }

  lemma NewFlowCarries(name: string, started: nat)
    ensures Carried(NewFlow(name, started))
  {
  }

  lemma UploadedKeeps(f: Up.Flow, w: Work)
    requires Up.Inv(f) && f.inTable && f.place.Outside?
    ensures var g := Uploaded(f, w); Up.Inv(g) && g.inTable && g.place.Outside?
  {
    Up.ActsKeep(f, w.upBetween);
    var _, _ := Up.CallRests(Up.ActsAll(f, w.upBetween), w.writing, w.receiving);
  }

  lemma DownloadedKeeps(f: Down.Flow, w: Work)
    requires Down.Inv(f) && f.place.Outside?
    ensures var g := Downloaded(f, w); Down.Inv(g) && g.place.Outside?
  {
    Down.ReadsKeep(f, w.downBetween);
    var _, _ := Down.CallRests(Down.ReadsAll(f, w.downBetween), w.reading, w.sending);
  }

  lemma ServedCarries(f: TcpFlow, w: Work, s: TcpSocket)
    requires Carried(f)
    ensures Carried(Served(f, w, s))
  {
    UploadedKeeps(f.up, w);
    DownloadedKeeps(f.down, w);
  }

  /** The socket of a flow that began at `started` is of no more use at `now`. */
  predicate Over(s: TcpSocket, started: nat, now: nat) {
    || s.state == Closed
    || (s.state == Handshake && now > started + HANDSHAKE_TIMEOUT_MS)
    || (s.state != Handshake && !s.mayRecv && !s.maySend)
  }

  /** What a turn means for a flow. Its target stays, a connection once made stays, and one is made exactly when
      the attempt succeeds. Before that no byte moves. After that each direction makes a whole call: it drains
      the socket until there is no room, nothing waits, or the writer is gone, and fills it until the channel is
      empty or the socket takes no more. The flow ends exactly if the attempt is refused, the upload has given
      up, or the socket is of no more use. */
  lemma ServedMoves(f: TcpFlow, w: Work, s: TcpSocket)
    returns (up: seq<Up.Event>, lastUp: Up.Flow, down: seq<Down.Event>, lastDown: Down.Flow)
    requires Carried(f)
    ensures var g := Served(f, w, s);
            && g.connectTo == f.connectTo && g.started == f.started
            && (g.connected <==> f.connected || w.outcome == Connected)
            && (!g.connected ==> g.up == f.up && g.down == f.down)
            && (g.closed <==> f.closed || (!f.connected && w.outcome == Refused) || g.up.closed || Over(s, f.started, w.now))
            && (g.connected ==> UpRests(f.up, up, lastUp, g.up) && DownRests(f.down, down, lastDown, g.down))
  {
    up, lastUp := UpLogged(f.up, w);
    down, lastDown := DownLogged(f.down, w);
  }

  /** `log` is a run from `f` to `g` that ends with a whole call. */
  ghost predicate UpRests(f: Up.Flow, log: seq<Up.Event>, last: Up.Flow, g: Up.Flow) {
    Run(Up.Next, f, log) == Some(g) && Up.RestsBy(f, log, last, g)
  }

  ghost predicate DownRests(f: Down.Flow, log: seq<Down.Event>, last: Down.Flow, g: Down.Flow) {
    && Run(Down.Next, f, log) == Some(g)
    && |log| >= 2 && Run(Down.Next, f, log[..|log| - 2]) == Some(last) && Down.Rests(last, log[|log| - 2])
    && (g.finSent <==> last.place.Head? && last.reader.Ended?)
  }

  lemma UpLogged(f: Up.Flow, w: Work) returns (log: seq<Up.Event>, last: Up.Flow)
    requires Up.Inv(f) && f.inTable && f.place.Outside?
    ensures UpRests(f, log, last, Uploaded(f, w))
  {
    Up.ActsKeep(f, w.upBetween);
    var mid := Up.ActsAll(f, w.upBetween);
    var before := Up.ActsRun(f, [], f, w.upBetween);
    var call;
    call, last := Up.CallRests(mid, w.writing, w.receiving);
    log := before + call;
    UpJoined(f, before, mid, call, last, Uploaded(f, w));
  }

  lemma UpJoined(f: Up.Flow, before: seq<Up.Event>, mid: Up.Flow, call: seq<Up.Event>, last: Up.Flow, g: Up.Flow)
    requires Run(Up.Next, f, before) == Some(mid) && UpRests(mid, call, last, g)
    ensures UpRests(f, before + call, last, g)
  {
    Joined(Up.Next, f, before, mid, call);
    Joined(Up.Next, f, before, mid, call[..|call| - 1]);
    assert (before + call)[..|before + call| - 1] == before + call[..|call| - 1];
  }

  lemma DownLogged(f: Down.Flow, w: Work) returns (log: seq<Down.Event>, last: Down.Flow)
    requires Down.Inv(f) && f.place.Outside?
    ensures DownRests(f, log, last, Downloaded(f, w))
  {
    Down.ReadsKeep(f, w.downBetween);
    var mid := Down.ReadsAll(f, w.downBetween);
    var before := Down.ReadsRun(f, [], f, w.downBetween);
    var call;
    call, last := Down.CallRests(mid, w.reading, w.sending);
    log := before + call;
    DownJoined(f, before, mid, call, last, Downloaded(f, w));
  }

  lemma DownJoined(f: Down.Flow, before: seq<Down.Event>, mid: Down.Flow, call: seq<Down.Event>, last: Down.Flow, g: Down.Flow)
    requires Run(Down.Next, f, before) == Some(mid) && DownRests(mid, call, last, g)
    ensures DownRests(f, before + call, last, g)
  {
    Joined(Down.Next, f, before, mid, call);
    Joined(Down.Next, f, before, mid, call[..|call| - 2]);
    assert (before + call)[..|before + call| - 2] == before + call[..|call| - 2];
  }

  /** No byte of the flow is lost, duplicated or reordered: downwards never, upwards while the writer
      lives; after that the tunnel has a prefix. A FIN has gone out only behind the last byte. */
  ghost predicate Conserves(f: TcpFlow) {
    && f.down.accepted + Down.Unsent(f.down) + Concat(f.down.rx) + Down.InHand(f.down) == f.down.read
    && f.down.counted == |f.down.accepted|
    && f.down.closes <= 1 && (f.down.closes == 1 ==> f.down.accepted == f.down.read)
    && f.up.written <= f.up.drained && 0 <= f.up.pending <= Up.FLOW_CHANNEL_CAPACITY
    && (!f.up.writer.Gone? ==>
          f.up.written + Up.BeingWritten(f.up) + Concat(f.up.queue) + Up.InHand(f.up) == f.up.drained)
  }

  lemma FlowConserves(f: TcpFlow)
    requires Carried(f)
    ensures Conserves(f)
  {
    Up.WrittenIsPrefix(f.up);
  }
}
