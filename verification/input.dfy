/**
 The keys the controller reads, their grouping into logical presses, and the
 fixed precedence in which a frame's press edges are examined.
 */
module Input {

  datatype Key = Up | Down | Left | Right | W | A | S | D | Z | Q | Space | Return

  /** The logical press a frame's press edges select; `NoPress` when none applies. */
  datatype Press = PressForward | PressBackward | PressLeft | PressRight | PressAttack | PressJump | NoPress

  /** The keys that trigger each press. */
  function Keys(p: Press): set<Key>
  {
    match p
    case PressForward => {Up, Z, W}
    case PressBackward => {Down, S}
    case PressLeft => {Left, A, Q}
    case PressRight => {Right, D}
    case PressAttack => {Space}
    case PressJump => {Return}
    case NoPress => {}
  }

  /** Position of each press in the order the program tests them. */
  function Rank(p: Press): nat
  {
    match p
    case PressForward => 0
    case PressBackward => 1
    case PressLeft => 2
    case PressRight => 3
    case PressAttack => 4
    case PressJump => 5
    case NoPress => 6
  }

  /** Some key of press `p` has an edge in `edges`. */
  predicate Hit(edges: set<Key>, p: Press)
  {
    exists k :: k in edges && k in Keys(p)
  }

  /** A release of a forward or backward key stops the character. */
  predicate StopEdge(released: set<Key>)
  {
    Hit(released, PressForward) || Hit(released, PressBackward)
  }

  /** The first press, in program order, whose key was just pressed. */
  function Classify(pressed: set<Key>): (p: Press)
    ensures p != NoPress ==> Hit(pressed, p)
    ensures forall q :: Rank(q) < Rank(p) ==> !Hit(pressed, q)
  {
    if Up in pressed || Z in pressed || W in pressed then PressForward
    else if Down in pressed || S in pressed then PressBackward
    else if Left in pressed || A in pressed || Q in pressed then PressLeft
    else if Right in pressed || D in pressed then PressRight
    else if Space in pressed then PressAttack
    else if Return in pressed then PressJump
    else NoPress
  }

  /** Exactly one press wins a frame, and it is `NoPress` only when no press key was hit. */
  lemma ClassifyIsFirstHit(pressed: set<Key>, p: Press)
    requires p != NoPress && Hit(pressed, p)
    ensures Classify(pressed) != NoPress
    ensures Rank(Classify(pressed)) <= Rank(p)
  {
  }
}
