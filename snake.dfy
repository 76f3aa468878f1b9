/**
 * The snake mini-game: a snake of grid cells moving on a 20 by 20 board,
 * one cell per tick, growing when its head reaches the food and ending
 * the game when the head would leave the board or enter the snake.
 *
 * The position of the next food is an input of the move that eats: the
 * game draws it at random, always inside the board.
 */
module Snake {

  datatype Position = Position(x: int, y: int)

  const GridSize: int := 20
  const InitialSnake: seq<Position> := [Position(10, 10)]
  const InitialFood: Position := Position(15, 15)
  const InitialDirection: Position := Position(0, -1)

  const Up: Position := Position(0, -1)
  const Down: Position := Position(0, 1)
  const Left: Position := Position(-1, 0)
  const Right: Position := Position(1, 0)

  predicate InGrid(p: Position) {
    0 <= p.x < GridSize && 0 <= p.y < GridSize
  }

  predicate AllInGrid(snake: seq<Position>) {
    forall i :: 0 <= i < |snake| ==> InGrid(snake[i])
  }

  /** No two segments share a cell. */
  predicate Distinct(snake: seq<Position>) {
    forall i, j :: 0 <= i < j < |snake| ==> snake[i] != snake[j]
  }

  /** One of the four directions of travel. */
  predicate IsUnit(d: Position) {
    d == Up || d == Down || d == Left || d == Right
  }

  function Opposite(d: Position): Position {
    Position(-d.x, -d.y)
  }

  /** The cell one step from `p` in direction `d`. */
  function Step(p: Position, d: Position): Position {
    Position(p.x + d.x, p.y + d.y)
  }

  /** The shape of a snake in play: non-empty, on the board, never
      overlapping itself. */
  predicate WellFormed(snake: seq<Position>) {
    |snake| > 0 && AllInGrid(snake) && Distinct(snake)
  }

  /** The snake after its head has moved to `head`: it grows by that cell
      when eating, and otherwise also loses its last segment. */
  function Advanced(snake: seq<Position>, head: Position, eats: bool): seq<Position>
    requires |snake| > 0
  {
    if eats then [head] + snake else [head] + snake[..|snake| - 1]
  }

  /** The direction a key selects: an arrow key turns unless it points
      straight back, any other key keeps the direction. */
  function Turned(direction: Position, key: string): Position {
    if key == "ArrowUp" then (if direction.y != 1 then Up else direction)
    else if key == "ArrowDown" then (if direction.y != -1 then Down else direction)
    else if key == "ArrowLeft" then (if direction.x != 1 then Left else direction)
    else if key == "ArrowRight" then (if direction.x != -1 then Right else direction)
    else direction
  }

  class SnakeGame {
    var snake: seq<Position>
    var food: Position
    var direction: Position
    var gameOver: bool
    var score: int
    var gameStarted: bool

    /** The game's invariant: a well-formed snake, a score of ten per
        segment grown, a direction of travel and food on the board. */
    predicate Valid()
      reads this
    {
      && WellFormed(snake)
      && score == 10 * (|snake| - 1)
      && IsUnit(direction)
      && InGrid(food)
    }

    constructor ()
      ensures Valid()
      ensures snake == InitialSnake && food == InitialFood && direction == InitialDirection
      ensures !gameOver && score == 0 && !gameStarted
    {
      snake := InitialSnake;
      food := InitialFood;
      direction := InitialDirection;
      gameOver := false;
      score := 0;
      gameStarted := false;
    }

    /** `moveSnake`, one tick of the game. `newFood` is where the next food
        appears if the head reaches the current food. */
    method MoveSnake(newFood: Position)
      requires Valid() && InGrid(newFood)
      modifies this
      ensures Valid()
      ensures direction == old(direction) && gameStarted == old(gameStarted)
      ensures old(gameOver) || !old(gameStarted) ==>
                snake == old(snake) && food == old(food) && score == old(score)
                && gameOver == old(gameOver)
      ensures !old(gameOver) && old(gameStarted) ==>
                var head := Step(old(snake)[0], old(direction));
                if !InGrid(head) || head in old(snake) then
                  gameOver && snake == old(snake) && food == old(food) && score == old(score)
                else
                  !gameOver
                  && snake == Advanced(old(snake), head, head == old(food))
                  && food == (if head == old(food) then newFood else old(food))
                  && score == old(score) + (if head == old(food) then 10 else 0)
    {
      if gameOver || !gameStarted {
        return;
      }
      var newSnake := snake;
      var head := snake[0];
      head := head.(x := head.x + direction.x);
      head := head.(y := head.y + direction.y);
      if head.x < 0 || head.x >= GridSize || head.y < 0 || head.y >= GridSize {
        gameOver := true;
        return;
      }
      if head in newSnake {
        gameOver := true;
        return;
      }
      newSnake := [head] + newSnake;
      if head.x == food.x && head.y == food.y {
        food := newFood;
        score := score + 10;
      } else {
        newSnake := newSnake[..|newSnake| - 1];
      }
      GrowthKeepsShape(snake, head, newSnake);
      snake := newSnake;
    }

    /** `handleKeyPress`. Before the game starts only the space bar has an
        effect, which starts it; afterwards the arrow keys turn (never
        straight back) and Escape asks to leave, which `exit` reports. */
    method HandleKeyPress(key: string) returns (exit: bool)
      requires Valid()
      modifies this
      ensures Valid()
      ensures snake == old(snake) && food == old(food) && score == old(score) && gameOver == old(gameOver)
      ensures !old(gameStarted) ==>
                direction == old(direction) && !exit && gameStarted == (key == " ")
      ensures old(gameStarted) ==>
                gameStarted && direction == Turned(old(direction), key) && exit == (key == "Escape")
    {
      exit := false;
      if !gameStarted {
        if key == " " {
          gameStarted := true;
        }
        return;
      }
      if key == "ArrowUp" {
        if direction.y != 1 { direction := Position(0, -1); }
      } else if key == "ArrowDown" {
        if direction.y != -1 { direction := Position(0, 1); }
      } else if key == "ArrowLeft" {
        if direction.x != 1 { direction := Position(-1, 0); }
      } else if key == "ArrowRight" {
        if direction.x != -1 { direction := Position(1, 0); }
      } else if key == "Escape" {
        exit := true;
      }
      TurnKeepsUnit(old(direction), key);
    }

    /** `resetGame`: back to the state on mount. */
    method ResetGame()
      modifies this
      ensures Valid()
      ensures snake == InitialSnake && food == InitialFood && direction == InitialDirection
      ensures !gameOver && score == 0 && !gameStarted
    {
      snake := InitialSnake;
      food := InitialFood;
      direction := InitialDirection;
      gameOver := false;
      score := 0;
      gameStarted := false;
    }
  }

  // ---------------------------------------------------------------------
  // What a move and a key press keep
  // ---------------------------------------------------------------------

  /** A move onto a free cell of the board keeps the snake well formed and
      changes its length by one exactly when it eats; the body behind the
      new head is the old snake, without its tail unless it ate. */
  lemma MoveKeepsShape(snake: seq<Position>, head: Position, eats: bool)
    requires WellFormed(snake) && InGrid(head) && head !in snake
    ensures WellFormed(Advanced(snake, head, eats))
    ensures |Advanced(snake, head, eats)| == |snake| + (if eats then 1 else 0)
    ensures Advanced(snake, head, eats)[0] == head
    ensures Advanced(snake, head, eats)[1..] == if eats then snake else snake[..|snake| - 1]
  {
    var s := Advanced(snake, head, eats);
    var body := if eats then snake else snake[..|snake| - 1];
    assert s == [head] + body;
    assert forall i :: 0 <= i < |body| ==> body[i] == snake[i];
    forall i, j | 0 <= i < j < |s| ensures s[i] != s[j] {
      if i == 0 {
        assert s[j] == snake[j - 1];
      } else {
        assert s[i] == snake[i - 1] && s[j] == snake[j - 1];
      }
    }
  }

  /** The step `MoveSnake` takes once the head is known to be free. */
  lemma GrowthKeepsShape(snake: seq<Position>, head: Position, newSnake: seq<Position>)
    requires WellFormed(snake) && InGrid(head) && head !in snake
    requires newSnake == [head] + snake || newSnake == ([head] + snake)[..|snake|]
    ensures WellFormed(newSnake)
    ensures newSnake == Advanced(snake, head, |newSnake| == |snake| + 1)
  {
    if newSnake == [head] + snake {
      MoveKeepsShape(snake, head, true);
    } else {
      assert ([head] + snake)[..|snake|] == [head] + snake[..|snake| - 1];
      MoveKeepsShape(snake, head, false);
    }
  }

  /** A key press keeps a direction of travel, and never selects the
      opposite of the current one. */
  lemma TurnKeepsUnit(direction: Position, key: string)
    requires IsUnit(direction)
    ensures IsUnit(Turned(direction, key))
    ensures Turned(direction, key) != Opposite(direction)
  {
  }

  /** The reversal guard looks at the direction last chosen, not the one
      last moved in: two turns between ticks can point the snake straight
      back, onto the segment behind its head. */
  lemma TwoTurnsReverse()
    ensures Turned(Turned(Up, "ArrowLeft"), "ArrowDown") == Opposite(Up)
  {
  }

  /** After a move in direction `d` the neck is one step behind the head,
      so a move straight back runs into it and ends the game. */
  lemma ReversingHitsNeck(snake: seq<Position>, d: Position)
    requires |snake| >= 2 && snake[0] == Step(snake[1], d)
    ensures Step(snake[0], Opposite(d)) == snake[1]
    ensures Step(snake[0], Opposite(d)) in snake
  {
  }

  /** Whatever keys are pressed, the direction stays one of the four. */
  lemma {:induction false} TurnsStayUnit(direction: Position, keys: seq<string>)
    requires IsUnit(direction)
    ensures IsUnit(TurnAll(direction, keys))
    decreases |keys|
  {
    if keys != [] {
      TurnKeepsUnit(direction, keys[0]);
      TurnsStayUnit(Turned(direction, keys[0]), keys[1..]);
    }
  }

  /** The direction after a sequence of key presses in a started game. */
  function TurnAll(direction: Position, keys: seq<string>): Position
    decreases |keys|
  {
    if keys == [] then direction else TurnAll(Turned(direction, keys[0]), keys[1..])
  }
}
