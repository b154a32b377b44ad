/** The telemetry records the renderer draws from. */
module Flights {

  /** A geographic position; the map projection is a parameter of every
      drawing that needs it, so the degrees are never computed with. */
  datatype Coordinates = Coordinates(lat: real, lon: real)

  /** One recorded sample of an aircraft's history. */
  datatype AircraftPosition = AircraftPosition(coordinates: Coordinates, altitude: int)

  /** The fields of an `Aircraft` the renderer reads. The numeric readouts
      appear as the text `String(...)` formats them to (see `Readouts`). */
  datatype Aircraft = Aircraft(
    call: string,
    registration: string,
    aircraftType: string,
    airlineOperator: string,
    sqwak: string,
    species: int,
    enginetype: string,
    fromCode: string,
    fromShort: string,
    toCode: string,
    toShort: string,
    coordinates: Coordinates)

  /** The altitude, heading, distance and speed as the info box prints them:
      `String(altitude) + " ft"`, `String(heading, 0)`,
      `String(distance, 2) + " km"` and `String(speed, 0) + " kn"`. */
  datatype Readouts = Readouts(altitude: string, heading: string, distance: string, speed: string)
}
