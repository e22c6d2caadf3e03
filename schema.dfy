/**
 * Row shapes of the three tables (monitors, measurements, alerts).
 * Generated uuid primary keys are not modelled; timestamps that the core
 * compares are milliseconds since the epoch, the others stay ISO-8601 text.
 */
module Schema {
  import opened Wrappers

  /** The two values the core writes into `measurements.status`. */
  const SUCCESS: string := "success"
  const FAILED: string := "failed"

  datatype Monitor = Monitor(
    id: string,
    name: string,
    url: string,
    interval: int,
    locations: string,            // JSON text of the selected locations
    discordWebhook: Option<string>,
    active: bool,
    public: bool,
    lastCheckedAt: Option<string>,
    createdAt: string,
    updatedAt: string)

  /** A measurement row as the checker builds it; the database adds `timestamp`. */
  datatype NewMeasurement = NewMeasurement(
    monitorId: string,
    location: string,
    country: Option<string>,
    city: Option<string>,
    networkType: Option<string>,
    statusCode: Option<int>,
    latency: int,
    status: string,
    errorMessage: Option<string>)

  datatype Measurement = Measurement(
    monitorId: string,
    location: string,
    country: Option<string>,
    city: Option<string>,
    networkType: Option<string>,
    statusCode: Option<int>,
    latency: int,
    status: string,
    errorMessage: Option<string>,
    timestamp: int)

  datatype Alert = Alert(
    monitorId: string,
    kind: string,                 // the `type` column
    message: string,
    acknowledged: bool,
    createdAt: int)
}
