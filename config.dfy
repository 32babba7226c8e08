/** The plotter configuration record (`PLOTTER_CONFIG`) and the values of the shipped example. */
module PlotterConfig {

  datatype Config = Config(
    dirPins: seq<int>,          // direction pins of the stepper drivers
    stepPins: seq<int>,         // step pins of the stepper drivers
    resPins: seq<int>,          // the three microstepping pins, shared by both drivers
    invertStepDir: (bool, bool), // per stepper: flip its direction bit
    microStepping: int,
    stepsPerMM: real,
    servoPin: int,
    servoPosUp: real,           // duty cycle in percent
    servoPosDown: real,
    baseWidth: real,            // distance between the two cord anchors
    movementResolution: real)   // sampling step of the motion planner, in millimetres

  /** The example configuration of the repository. */
  const ExampleConfig: Config := Config(
    [22, 24], [25, 23], [19, 13, 6], (false, false), 16, 80.0,
    17, 8.7, 7.5, 620.0, 1.0)
}
