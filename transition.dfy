/** The record a player's move attempt produces (logic/MoveTransition.java). */
module Transitions {
  import opened Positions

  /** MoveStatus: DONE, UNDONE, LEFT_IN_CHECK. */
  datatype MoveStatus = Done | Undone | LeftInCheck

  /**
   * MoveTransition: the board moved from, the board reached, the move and its status; the
   * getters are the datatype's field selectors.
   */
  datatype MoveTransition = MoveTransition(fromBoard: Board, toBoard: Board, transitionMove: Move, moveStatus: MoveStatus)
}
