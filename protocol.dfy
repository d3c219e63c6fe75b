/** The two halves of the command protocol put together: what the server
    sends the client decodes, and what the client sends the server applies. */
module Protocol {
  import opened Wire
  import opened Handshake
  import opened Entities
  import PongServer
  import PongClient

  /** The client records exactly the id the server assigned when that id is
      0 or 1, and never becomes initialised for any other id; either way the
      waiter is woken once. */
  lemma InitializeRoundTrip(userId: uint16, h: HandshakeState)
    requires !h.initialized
    ensures Step(h, PongServer.InitializeMessage(userId).payload).initialized <==> userId <= 1
    ensures userId <= 1 ==> Step(h, PongServer.InitializeMessage(userId).payload).userId == userId
    ensures userId > 1 ==> Step(h, PongServer.InitializeMessage(userId).payload).userId == h.userId
    ensures Step(h, PongServer.InitializeMessage(userId).payload).releases == h.releases + 1
  {
    var payload := PongServer.InitializeMessage(userId).payload;
    assert payload[..4] == payload;
    DecodeEncodeInt32(userId);
    assert ReadInt(payload) == userId;
  }

  /** A W press moves the sender's paddle up by its step and an S press
      moves it down, once the server applies the command. */
  lemma KeyMovesPaddle(keys: PongClient.Keys, user: uint16, p: Vec2)
    requires PongClient.Decide(keys).Send?
    ensures var m := PongClient.MoveMessage(PongClient.Decide(keys).direction);
      PongServer.Moved(p, user, ReadByte(m.payload))
        == p.(y := if keys.wDown then p.y + PongServer.MoveStep(user) else p.y - PongServer.MoveStep(user))
  {
  }

  /** The direction bytes of a series of `Move` commands, as the server reads them. */
  function Directions(ms: seq<Message>): (r: seq<byte>)
    ensures |r| == |ms|
  {
    if ms == [] then [] else [ReadByte(ms[0].payload)] + Directions(ms[1..])
  }

  /** How many iterations of a run hold W down before Num2 is released. */
  function UpPresses(frames: seq<PongClient.Keys>): nat
  {
    if frames == [] || frames[0].num2JustReleased then 0
    else (if frames[0].wDown then 1 else 0) + UpPresses(frames[1..])
  }

  lemma {:induction false} SentUpCount(frames: seq<PongClient.Keys>)
    ensures PongServer.CountUp(Directions(PongClient.Sent(frames))) == UpPresses(frames)
  {
    if frames != [] && !frames[0].num2JustReleased {
      SentUpCount(frames[1..]);
      var rest := PongClient.Sent(frames[1..]);
      if frames[0].wDown || frames[0].sDown {
        var d := PongClient.Decide(frames[0]).direction;
        assert PongClient.Sent(frames) == [PongClient.MoveMessage(d)] + rest;
        assert Directions([PongClient.MoveMessage(d)] + rest) == [d] + Directions(rest);
        assert ([d] + Directions(rest))[1..] == Directions(rest);
      }
    }
  }

  /** When the server applies every command of one client run to that
      client's paddle, the paddle ends as many steps up as the run had W
      iterations, less the S-only ones, and never moves sideways. */
  lemma {:induction false} RunMovesPaddle(frames: seq<PongClient.Keys>, user: uint16, p: Vec2)
    ensures var ds := Directions(PongClient.Sent(frames));
      PongServer.MovedAll(p, user, ds)
        == p.(y := p.y + PongServer.MoveStep(user) * (2 * UpPresses(frames) - |PongClient.Sent(frames)|))
  {
    var ds := Directions(PongClient.Sent(frames));
    PongServer.MovedAllBalance(p, user, ds);
    SentUpCount(frames);
    assert 2 * PongServer.CountUp(ds) - |ds| == 2 * UpPresses(frames) - |PongClient.Sent(frames)|;
  }
}
