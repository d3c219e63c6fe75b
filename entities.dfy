/** The replicated game objects. Their fields are networked variables that
    the server and the client update in place; coordinates are whole numbers
    here, since every value the game writes into them is integral. */
module Entities {

  /** A two-component vector (the game's `Vector2f32`). */
  datatype Vec2 = Vec2(x: int, y: int)

  /** The ball: where it is, how large it is and where it is heading. */
  class Ball {
    var position: Vec2
    var size: Vec2
    var direction: Vec2

    /** A ball as the entity store creates it, before any field is set. */
    constructor ()
    {
    }
  }

  /** A paddle: where it is and how large it is. */
  class Player {
    var position: Vec2
    var size: Vec2

    /** A player as the entity store creates it, before any field is set. */
    constructor ()
    {
    }
  }
}
