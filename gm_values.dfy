/** The identifiers of selfdrive/car/gm/values.py that the interface refers to. */
module GmValues {

  /** CAR: the fingerprints named in the GM interface; Other stands for any further one. */
  datatype Car =
    | Volt | VoltNr | Malibu | MalibuNr | HoldenAstra | Acadia | AcadiaNr
    | BuickRegal | CadillacAts | EscaladeEsv | BoltNr | EquinoxNr | TahoeNr
    | SilveradoNr | Suburban | BoltEuv
    | Other(name: string)

  /**
   * CruiseButtons: the raw ACC button code on the bus. Init is the code reported
   * before the steering-wheel module is up; Unlisted is any other raw value.
   */
  datatype CruiseButton = Init | Unpress | ResAccel | DecelSet | Main | Cancel | Unlisted(code: int)
}
