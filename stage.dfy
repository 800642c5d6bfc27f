/** The GameStage enum the evaluation terms are weighted by. */
module GameStages {
  datatype GameStage = Opening | Midgame | Ending
}
