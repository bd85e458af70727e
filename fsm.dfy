/**
 * The per-user conversation context the bot framework keeps: the current
 * state and a data bag. One context per user is shared by every router, so
 * the calculator and the administrator flows read and clear the same one.
 */
module Fsm {
  import opened Wrappers

  /** The states of CarCalculationStates, AdminStates and RequestState. */
  datatype StateId =
    | WaitingForCarPriceCny
    | WaitingForYear
    | WaitingForFuelType
    | WaitingForEngineVolume
    | WaitingForCnyRate
    | WaitingForEurRate
    | WaitingForPhone
    | WaitingForComment

  /** A value stored in the data bag. */
  datatype DataVal = DStr(s: string) | DInt(i: int) | DFloat(r: real)

  class Context {
    var state: Option<StateId>
    var data: map<string, DataVal>

    constructor ()
      ensures state == None && data == map[]
    {
      state := None;
      data := map[];
    }

    /** state.clear(): no state and an empty bag. */
    method Clear()
      modifies this
      ensures state == None && data == map[]
    {
      state := None;
      data := map[];
    }

    /** state.set_state(s): the bag is kept. */
    method SetState(s: StateId)
      modifies this
      ensures state == Some(s) && data == old(data)
    {
      state := Some(s);
    }

    /** state.update_data(key=v): one entry set, the rest of the bag and the state kept. */
    method UpdateData(key: string, v: DataVal)
      modifies this
      ensures data == old(data)[key := v] && state == old(state)
    {
      data := data[key := v];
    }
  }
}
