/** The emotion categories shared by the classifiers and the quality scorer. */
module Labels {

  /**
   * The three categories of `КАТЕГОРИИ_ЭМОЦИЙ`; no classifier produces any
   * other label.
   */
  datatype Emotion = Negative | Neutral | Joy

  /** The label string the analyser stores for each category. */
  function Name(e: Emotion): string
  {
    match e
    case Negative => "негативные"
    case Neutral => "нейтрально"
    case Joy => "радость"
  }

  /** Membership in `['нейтрально', 'радость']`, the "calm" labels. */
  predicate Calm(e: Emotion)
  {
    e == Neutral || e == Joy
  }

}
