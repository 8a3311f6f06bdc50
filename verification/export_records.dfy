/** The records an export is built from: a reading keyed by its timestamp
    string, and a sensor's display name and unit. */
module ExportRecords {

  datatype ExportPoint = ExportPoint(timestamp: string, value: real)

  datatype SensorInfo = SensorInfo(name: string, unit: string)
}
