/** The authoritative side of Pong: the world the server starts with, the
    handshake message it sends to a user who connects, and how it applies a
    user's `Move` command to that user's paddle. */
module PongServer {
  import opened Wire
  import opened Entities

  /** How far one `Move` command shifts the paddle of the given user. */
  function MoveStep(user: uint16): (r: int)
    ensures r >= 2
  {
    2 + 2 * user
  }

  /** Where a paddle at p ends up after one `Move` from user with the given
      direction byte: byte 0 moves it along +y, every other byte along -y. */
  function Moved(p: Vec2, user: uint16, direction: byte): (r: Vec2)
    ensures r.x == p.x
    ensures r.y > p.y <==> direction == 0
    ensures r.y - p.y in {MoveStep(user), -MoveStep(user)}
  {
    if direction == 0 then p.(y := p.y + MoveStep(user))
    else p.(y := p.y - MoveStep(user))
  }

  /** User 0's paddle moves by 2 and user 1's by 4. */
  lemma MovedStepPerUser(p: Vec2, user: uint16, direction: byte)
    ensures user == 0 ==> Moved(p, user, direction).y - p.y in {2, -2}
    ensures user == 1 ==> Moved(p, user, direction).y - p.y in {4, -4}
  {
  }

  /** A move up followed by a move down from the same user restores the paddle. */
  lemma MoveUpThenDown(p: Vec2, user: uint16, down: byte)
    requires down != 0
    ensures Moved(Moved(p, user, 0), user, down) == p
    ensures Moved(Moved(p, user, down), user, 0) == p
  {
  }

  /** The paddle after a whole run of `Move` commands from one user, in order. */
  function MovedAll(p: Vec2, user: uint16, directions: seq<byte>): Vec2
    decreases directions
  {
    if directions == [] then p
    else MovedAll(Moved(p, user, directions[0]), user, directions[1..])
  }

  /** How many of the direction bytes are 0 (up). */
  function CountUp(directions: seq<byte>): (r: nat)
    ensures r <= |directions|
  {
    if directions == [] then 0
    else (if directions[0] == 0 then 1 else 0) + CountUp(directions[1..])
  }

  /** Only the balance of up and down commands matters, not their order: the
      paddle ends (ups - downs) steps of the user's size away along y. */
  lemma {:induction false} MovedAllBalance(p: Vec2, user: uint16, directions: seq<byte>)
    ensures MovedAll(p, user, directions)
         == p.(y := p.y + MoveStep(user) * (2 * CountUp(directions) - |directions|))
    decreases directions
  {
    if directions != [] {
      var q := Moved(p, user, directions[0]);
      MovedAllBalance(q, user, directions[1..]);
    }
  }

  /** The `Initialize` message sent to a newly connected user: its name, and
      the user id written as an int32. */
  function InitializeMessage(userId: uint16): (r: Message)
    ensures r.name == "Initialize" && |r.payload| == 4
    ensures DecodeInt32(r.payload) == userId
  {
    DecodeEncodeInt32(userId);
    Message("Initialize", EncodeInt32(userId))
  }

  /** A host message together with the users it is addressed to. */
  datatype Outgoing = Outgoing(message: Message, recipients: set<uint16>)

  class Server {
    var ball: Ball
    var players: array<Player>

    /** The two paddles are two distinct entities. */
    ghost predicate Valid()
      reads this, players
    {
      players.Length == 2 && players[0] != players[1]
    }

    /** The starting world: one ball in the middle heading right, and one paddle
        near each side. */
    constructor ()
      ensures Valid()
      ensures fresh(ball) && fresh(players) && fresh(players[0]) && fresh(players[1])
      ensures ball.position == Vec2(300, 150) && ball.size == Vec2(20, 20)
      ensures ball.direction == Vec2(1, 0)
      ensures players[0].position == Vec2(50, 150) && players[0].size == Vec2(20, 64)
      ensures players[1].position == Vec2(550, 150) && players[1].size == Vec2(20, 64)
    {
      var b := new Ball();
      b.position := Vec2(300, 150);
      b.size := Vec2(20, 20);
      b.direction := Vec2(1, 0);

      var p0 := new Player();
      p0.position := Vec2(50, 150);
      p0.size := Vec2(20, 64);
      var p1 := new Player();
      p1.position := Vec2(550, 150);
      p1.size := Vec2(20, 64);

      ball := b;
      players := new Player[] [p0, p1];
    }

    /** Builds the `Initialize` message for the user who just connected and
        addresses it to that user alone; the user reads back its own id. */
    method OnConnection(userId: uint16) returns (out: Outgoing)
      ensures out.message == InitializeMessage(userId)
      ensures out.message.name == "Initialize" && |out.message.payload| == 4
      ensures DecodeInt32(out.message.payload) == userId
      ensures out.recipients == {userId}
    {
      var message := Message("Initialize", []);
      var recipients: set<uint16> := {};
      recipients := recipients + {userId};
      message := message.(payload := message.payload + EncodeInt32(userId));
      DecodeEncodeInt32(userId);
      out := Outgoing(message, recipients);
    }
  }

  /** Applies the commands users send to the server. */
  class PlayerMessageListener {
    var server: Server

    constructor (server: Server)
      ensures this.server == server
    {
      this.server := server;
    }

    /** A `Move` from user 0 or 1 shifts that user's paddle along y; a message
        from any other user, or under any other name, changes nothing. */
    method HandleMessage(m: UserMessage)
      requires server.Valid()
      modifies if m.user <= 1 then {server.players[m.user]} else {}
      ensures m.user <= 1 && m.message.name == "Move" ==>
        server.players[m.user].position
          == Moved(old(server.players[m.user].position), m.user, ReadByte(m.message.payload))
      ensures m.user > 1 || m.message.name != "Move" ==>
        forall i :: 0 <= i < 2 ==> server.players[i].position == old(server.players[i].position)
      ensures forall i :: 0 <= i < 2 && i != m.user ==>
        server.players[i].position == old(server.players[i].position)
      ensures forall i :: 0 <= i < 2 ==> server.players[i].size == old(server.players[i].size)
    {
      if m.user > 1 {
        return;
      }

      if m.message.name == "Move" {
        var player := server.players[m.user];
        var direction := ReadByte(m.message.payload);
        var newPosition := player.position;
        if direction == 0 {
          newPosition := newPosition.(y := newPosition.y + (2 + 2 * m.user));
        } else {
          newPosition := newPosition.(y := newPosition.y - (2 + 2 * m.user));
        }
        player.position := newPosition;
      }
    }
  }
}
