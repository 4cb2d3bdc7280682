/** The part of the Tango control framework both device revisions rely on. */
module Tango {

  /** The device states the two revisions set: OFF during initialisation,
      ON when idle, MOVING while the tape is driven, FAULT for an impossible
      switch reading and ALARM for a stop that needs an operator. */
  datatype DevState = Off | On | Moving | Fault | Alarm
}
