/** The records the weather endpoint's JSON body is decoded into, and the
    coordinates a caller may select a location by. Swift's `Double` and `Float`
    are modelled as `real`; Swift's fixed-width integers as range-limited
    newtypes, so a decoded humidity or wind direction is only constrained by
    its declared width, never by a meteorological range. */
module Weather {

  /** Swift's `Int8`. */
  newtype Int8 = x: int | -0x80 <= x < 0x80

  /** Swift's `Int16`. */
  newtype Int16 = x: int | -0x8000 <= x < 0x8000

  datatype WeatherMain = WeatherMain(
    feelsLike: real,
    humidity: Int8,
    pressure: Int16,
    temp: real,
    tempMax: real,
    tempMin: real)

  datatype Wind = Wind(speed: real, deg: Int16)

  datatype WeatherData = WeatherData(main: WeatherMain, wind: Wind)

  datatype Coordinates = Coordinates(lat: real, lon: real)
}
