/** The records the dashboard passes between its routes and panels
    (agrisight/src/types/index.ts). Timestamps are left out everywhere. */
module Types {

  datatype Health = Healthy | Moderate | Stressed

  /** A closed ring of (longitude, latitude) pairs. */
  type Ring = seq<(real, real)>

  datatype NdviData = NdviData(farmId: string, ndvi: real, health: Health,
                               geometry: seq<Ring>, areaHectares: real)

  /** The `weather` object of a forecast day (only the fields the panels read). */
  datatype Condition = Condition(main: string, icon: string)

  datatype WeatherDay = WeatherDay(date: string, temp: int, weather: Condition, rain: real)

  datatype WeatherData = WeatherData(location: string, forecast: seq<WeatherDay>,
                                     rainfallTotal: real, rainfallDeficit: real, alert: string)

  datatype Transaction = Transaction(date: string, description: string, amount: real)

  datatype FinancialData = FinancialData(customerId: string, accountId: string, nickname: string,
                                         balance: real, transactions: seq<Transaction>)

}
