/**
 * The execution backend families that runtime keys are declared against.
 * The backend type itself is not part of this model beyond its four tags:
 * a closed enumeration compared only by identity.
 */
module BackendTypes {

  /** Local process execution, Sun Grid Engine, Google JES (cloud batch) and LSF. */
  datatype BackendType = Local | Sge | Jes | Lsf
}
