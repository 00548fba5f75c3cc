/** The row of the shared `safety_violations` table. The detection service writes these rows,
    the REST backend lists them and the dashboard filters them. */
module Records {

  /** One logged violation. `timestamp` is the moment of logging in whole seconds;
      the gear columns are the comma-joined label lists written by the detection service. */
  datatype Violation = Violation(
    id: int,
    cameraLocation: string,
    detectedGear: string,
    missingGear: string,
    timestamp: int)
}
