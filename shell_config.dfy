/** The tuning constants in which the two application shells differ, and
    the two instances: the "Kardashev Scale of the Universe" shell
    (koftheuniverse/src/App.tsx) and the "Kardashev Scale Explorer" shell
    (src/App.tsx). */
module ShellConfig {

  datatype Shell = Shell(
    minScale: real,        // MIN_SCALE, lower end of the zoom range (log10 W)
    maxScale: real,        // MAX_SCALE, upper end of the zoom range
    initialScale: real,    // initial value of the `scale` state
    wheelSensitivity: real,// zoom change per unit of wheel deltaY
    rateLimited: bool,     // wheel events closer than one 60 Hz frame are dropped
    labelThreshold: real,  // a label is drawn only when scaleFactor exceeds this
    yOffset: int)          // top of the vertical band of the layout hash

  /** What the models need of a shell's constants. */
  predicate ValidShell(s: Shell)
  {
    s.minScale <= s.initialScale <= s.maxScale && s.labelThreshold > 0.0
  }

  /** koftheuniverse/src/App.tsx */
  const KOfTheUniverse: Shell := Shell(
    minScale := -18.0, maxScale := 40.0, initialScale := 6.3,
    wheelSensitivity := 0.01, rateLimited := true,
    labelThreshold := 1.0, yOffset := 30)

  /** src/App.tsx */
  const Explorer: Shell := Shell(
    minScale := -14.0, maxScale := 40.0, initialScale := 2.0,
    wheelSensitivity := 0.005, rateLimited := false,
    labelThreshold := 0.2, yOffset := 10)
}
