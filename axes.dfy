/** The plot axes and face modes the simulation can display (AxisVariable.cs). */
module Axes {
  /** Quantities that can be put on the X or Y axis of the plot. */
  datatype AxisVariable =
    | LifeSatisfaction        // 0-10
    | PersonalUtility         // 0-1
    | SocietalFairness        // 0-1
    | Wealth                  // 0-10
    | DeltaPersonalUtility
    | DeltaSocietalFairness
    | Stack                   // histogram view

  /** What a respondent's two-sided face shows. */
  datatype FaceMode = Split | PersonalWellbeing | SocietalFairness | Cluster
}
