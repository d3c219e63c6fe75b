/** The observing side of Pong: the client's starting state, the listener
    that completes the handshake when the server's `Initialize` message
    arrives, the join that waits for it, and the game loop that turns key
    presses into `Move` commands. */
module PongClient {
  import opened Wire
  import opened Entities
  import opened Handshake
  import PongServer

  datatype Option<T> = None | Some(value: T)

  /** The outcome of connecting: success, or any of the networking library's
      other statuses. */
  datatype ConnectStatus = Succeeded | Failed

  /** The keyboard as the game loop sees it in one iteration. */
  datatype Keys = Keys(num2JustReleased: bool, wDown: bool, sDown: bool)

  /** What one iteration of the game loop does with the keys. */
  datatype Decision = Quit | Send(direction: byte) | Idle

  /** The key decision of one loop iteration: releasing Num2 quits; otherwise
      W sends a move with byte 0, and S (without W) a move with byte 1. */
  function Decide(keys: Keys): (d: Decision)
    ensures d == Quit <==> keys.num2JustReleased
    ensures d.Send? <==> !keys.num2JustReleased && (keys.wDown || keys.sDown)
    ensures d.Send? ==> d.direction <= 1 && (d.direction == 0 <==> keys.wDown)
  {
    if keys.num2JustReleased then Quit
    else if keys.wDown then Send(0)
    else if keys.sDown then Send(1)
    else Idle
  }

  /** The `Move` command carrying one direction byte. */
  function MoveMessage(direction: byte): (r: Message)
    ensures r.name == "Move" && |r.payload| == 1
    ensures ReadByte(r.payload) == direction
  {
    Message("Move", [direction])
  }

  /** The commands a run sends when its loop sees the keyboard snapshots in
      frames, one per iteration, for as long as the client stays connected:
      at most one per iteration, each a `Move` with a single direction byte
      of 0 or 1. */
  function Sent(frames: seq<Keys>): (r: seq<Message>)
    ensures |r| <= |frames|
    ensures forall i :: 0 <= i < |r| ==>
      r[i].name == "Move" && |r[i].payload| == 1 && r[i].payload[0] <= 1
  {
    if frames == [] then []
    else match Decide(frames[0])
      case Quit => []
      case Send(d) => [MoveMessage(d)] + Sent(frames[1..])
      case Idle => Sent(frames[1..])
  }

  /** Nothing the keyboard does after Num2 is released is sent. */
  lemma {:induction false} SentEndsAtQuit(frames: seq<Keys>, k: nat)
    requires k < |frames| && frames[k].num2JustReleased
    ensures Sent(frames) == Sent(frames[..k])
  {
    if k > 0 {
      SentEndsAtQuit(frames[1..], k - 1);
      assert frames[1..][..k - 1] == frames[..k][1..];
    }
  }

  class Client {
    var server: PongServer.Server?
    var ball: Ball
    var players: array<Player>
    var userId: uint16
    var initialized: bool
    /** How many times the init semaphore has been released. */
    var initReleases: nat
    var initListener: InitMessageListener?

    /** The two paddles are distinct, and the client's handshake listener
        works on this client. */
    ghost predicate Valid()
      reads this, players, initListener
    {
      players.Length == 2 && players[0] != players[1] &&
      initListener != null && initListener.client == this
    }

    /** The handshake part of the client's state. */
    function State(): HandshakeState
      reads this
    {
      HandshakeState(initialized, userId, initReleases)
    }

    /** A client not yet joined to any server, with both paddles placed. */
    constructor ()
      ensures Valid()
      ensures server == null && userId == 0 && !initialized && initReleases == 0
      ensures fresh(ball) && fresh(players) && fresh(players[0]) && fresh(players[1])
      ensures players[0].position == Vec2(100, 300) && players[1].position == Vec2(600, 300)
    {
      server := null;
      userId := 0;
      initialized := false;
      initReleases := 0;
      initListener := null;

      ball := new Ball();
      var p0 := new Player();
      p0.position := Vec2(100, 300);
      var p1 := new Player();
      p1.position := Vec2(600, 300);
      players := new Player[] [p0, p1];
      new;
      initListener := new InitMessageListener(this);
    }

    /** Connects and waits for the handshake: the result is true exactly when
        the connection succeeded and the `Initialize` message that reached the
        listener before the wait ended initialised the client. The flag is
        cleared first, so an earlier handshake never counts. */
    method Join(server: PongServer.Server?, status: ConnectStatus, delivered: Option<Message>)
      returns (joined: bool)
      requires Valid()
      modifies this
      ensures Valid()
      ensures ball == old(ball) && players == old(players) && initListener == old(initListener)
      ensures status != Succeeded ==>
        !joined && this.server == null && State() == old(State()).(initialized := false)
      ensures status == Succeeded ==>
        State() == if delivered.Some? then Step(old(State()).(initialized := false), delivered.value.payload)
                   else old(State()).(initialized := false)
      ensures joined <==> status == Succeeded && initialized
      ensures joined ==> this.server == server && userId <= 1
      ensures !joined && status == Succeeded ==> this.server == old(this.server)
    {
      initialized := false;

      if status != Succeeded {
        this.server := null;
        return false;
      }

      // The listener runs on the network thread while the join waits.
      if delivered.Some? {
        initListener.HandleMessage(delivered.value);
      }

      if initialized == false {
        return false;
      }

      this.server := server;
      return true;
    }

    /** The game loop: one iteration per keyboard snapshot while connected,
        sending what Decide chooses, and leaving at the first Num2 release. */
    method Run(frames: seq<Keys>) returns (sent: seq<Message>, quit: bool)
      ensures sent == Sent(frames)
      ensures quit <==> exists i :: 0 <= i < |frames| && frames[i].num2JustReleased
    {
      sent := [];
      quit := false;
      var i := 0;
      while i < |frames|
        invariant 0 <= i <= |frames|
        invariant forall j :: 0 <= j < i ==> !frames[j].num2JustReleased
        invariant sent + Sent(frames[i..]) == Sent(frames)
      {
        var keys := frames[i];
        if keys.num2JustReleased {
          quit := true;
          break;
        } else if keys.wDown {
          sent := sent + [MoveMessage(0)];
        } else if keys.sDown {
          sent := sent + [MoveMessage(1)];
        }
        assert frames[i..][1..] == frames[i + 1..];
        i := i + 1;
      }
    }
  }

  /** Completes the handshake of the client it belongs to. */
  class InitMessageListener {
    var client: Client

    constructor (client: Client)
      ensures this.client == client
    {
      this.client := client;
    }

    /** Handles an `Initialize` message: ignored once the client is
        initialised, dropped when shorter than an int32, and otherwise it wakes
        the waiter, recording the id first when it names a player. */
    method HandleMessage(m: Message)
      modifies client`initialized, client`userId, client`initReleases
      ensures client.State() == Step(old(client.State()), m.payload)
      ensures client.initReleases <= old(client.initReleases) + 1
    {
      if client.initialized == true {
        return;
      }

      if |m.payload| < 4 {
        return;
      }

      var userId := ReadInt(m.payload);

      if userId < 0 || userId > 1 {
        client.initialized := false;
        client.initReleases := client.initReleases + 1;
        return;
      }

      client.userId := userId;

      client.initialized := true;
      client.initReleases := client.initReleases + 1;
    }
  }
}
