/** The detector event record shared by the dashboard views. */
module Events {
  import opened Wrappers

  /** The closed two-value classification of an event. */
  datatype Classification = NuclearRecoil | ElectronicRecoil

  /** One detector interaction. Numbers are reals; the source's doubles are not
      rounded here. `trueLabel` and `reasoning` are optional fields. */
  datatype Event = Event(
    id: string,
    s1: real,
    s2: real,
    s2S1Ratio: real,
    recoilEnergy: real,
    x: real,
    y: real,
    z: real,
    classification: Classification,
    trueLabel: Option<string>,
    confidence: real,
    reasoning: Option<string>)
}
