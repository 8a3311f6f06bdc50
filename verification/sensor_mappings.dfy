/** Display metadata of sensor ids: icon, label, description and colour, each
    a dictionary with a fallback for ids it does not know. Both spellings of an
    id occur, the camelCase one of the dashboard and the snake_case one of the
    file API. */
module SensorMappings {

  const IconMap: map<string, string> := map[
    "soilTemperature" := "mdi-thermometer",
    "soilMoisture" := "mdi-water-percent",
    "soilPH" := "mdi-flask",
    "airTemperature" := "mdi-thermometer",
    "airHumidity" := "mdi-water-percent",
    "lightIntensity" := "mdi-white-balance-sunny",
    "soil_temperature" := "mdi-thermometer",
    "soil_moisture" := "mdi-water-percent",
    "soil_ph" := "mdi-flask",
    "soil_conductivity" := "mdi-flash",
    "air_temperature" := "mdi-thermometer",
    "air_humidity" := "mdi-water-percent",
    "air_co2" := "mdi-molecule-co2",
    "air_tvoc" := "mdi-air-filter",
    "light_intensity" := "mdi-white-balance-sunny"
  ]

  const LabelMap: map<string, string> := map[
    "soilTemperature" := "Soil Temperature",
    "soilMoisture" := "Soil Moisture",
    "soilPH" := "Soil pH",
    "airTemperature" := "Air Temperature",
    "airHumidity" := "Air Humidity",
    "lightIntensity" := "Light Intensity",
    "soil_temperature" := "Soil Temperature",
    "soil_moisture" := "Soil Moisture",
    "soil_ph" := "Soil pH",
    "air_temperature" := "Air Temperature",
    "air_humidity" := "Air Humidity",
    "light_intensity" := "Light Intensity"
  ]

  const DescriptionMap: map<string, string> := map[
    "soilTemperature" := "Ground level",
    "soilMoisture" := "Root level",
    "soilPH" := "Acidity level",
    "airTemperature" := "Ambient",
    "airHumidity" := "Ambient",
    "lightIntensity" := "Canopy level",
    "soil_temperature" := "Ground level",
    "soil_moisture" := "Root level",
    "soil_ph" := "Acidity level",
    "soil_conductivity" := "Electrical conductivity",
    "air_temperature" := "Ambient",
    "air_humidity" := "Ambient",
    "air_co2" := "Carbon dioxide",
    "air_tvoc" := "Volatile compounds",
    "light_intensity" := "Canopy level"
  ]

  const ColorMap: map<string, string> := map[
    "soilTemperature" := "green",
    "soilMoisture" := "blue",
    "soilPH" := "purple",
    "airTemperature" := "red",
    "airHumidity" := "blue",
    "lightIntensity" := "teal",
    "soil_temperature" := "#e05d44",
    "soil_moisture" := "#3b82f6",
    "soil_ph" := "#8b5cf6",
    "soil_conductivity" := "#f59e0b",
    "air_temperature" := "#ef4444",
    "air_humidity" := "#0ea5e9",
    "air_co2" := "#10b981",
    "air_tvoc" := "#6366f1",
    "light_intensity" := "#f59e0b"
  ]

  /** `m[k] || fallback`: an absent key and an empty entry both fall back. */
  function LookupOr(m: map<string, string>, k: string, fallback: string): string {
    if k in m && m[k] != "" then m[k] else fallback
  }

  function GetSensorIcon(sensorId: string): (r: string)
    ensures sensorId in IconMap ==> r == IconMap[sensorId]
    ensures sensorId !in IconMap ==> r == "mdi-gauge"
  {
    LookupOr(IconMap, sensorId, "mdi-gauge")
  }

  function GetSensorLabel(sensorId: string): (r: string)
    ensures sensorId in LabelMap ==> r == LabelMap[sensorId]
    ensures sensorId !in LabelMap ==> r == sensorId
  {
    LookupOr(LabelMap, sensorId, sensorId)
  }

  function GetSensorDescription(sensorId: string): (r: string)
    ensures sensorId in DescriptionMap ==> r == DescriptionMap[sensorId] && r != ""
    ensures sensorId !in DescriptionMap ==> r == ""
  {
    LookupOr(DescriptionMap, sensorId, "")
  }

  function GetSensorColor(sensorId: string): (r: string)
    ensures sensorId in ColorMap ==> r == ColorMap[sensorId]
    ensures sensorId !in ColorMap ==> r == "gray"
  {
    LookupOr(ColorMap, sensorId, "gray")
  }

  /** An id and its alias look the same (icon, label, description) but are
      drawn in different colours. */
  predicate AliasAgrees(camel: string, snake: string) {
    && GetSensorIcon(camel) == GetSensorIcon(snake)
    && GetSensorLabel(camel) == GetSensorLabel(snake)
    && GetSensorDescription(camel) == GetSensorDescription(snake)
    && GetSensorColor(camel) != GetSensorColor(snake)
  }

  /** Every camelCase id and its snake_case alias share icon, label and
      description, but never the colour. */
  lemma AliasesShareAllButColor()
    ensures AliasAgrees("soilTemperature", "soil_temperature")
    ensures AliasAgrees("soilMoisture", "soil_moisture")
    ensures AliasAgrees("soilPH", "soil_ph")
    ensures AliasAgrees("airTemperature", "air_temperature")
    ensures AliasAgrees("airHumidity", "air_humidity")
    ensures AliasAgrees("lightIntensity", "light_intensity")
  {
    SoilTemperatureAlias();
    SoilMoistureAlias();
    SoilPHAlias();
    AirTemperatureAlias();
    AirHumidityAlias();
    LightIntensityAlias();
  }

  // One lemma per pair and dictionary keeps each evaluation of the
  // dictionaries small.

  lemma SoilTemperatureAlias() ensures AliasAgrees("soilTemperature", "soil_temperature") {
    SoilTemperatureIcon(); SoilTemperatureLabel(); SoilTemperatureDescription(); SoilTemperatureColor();
  }
  lemma SoilTemperatureIcon() ensures GetSensorIcon("soilTemperature") == GetSensorIcon("soil_temperature") { }
  lemma SoilTemperatureLabel() ensures GetSensorLabel("soilTemperature") == GetSensorLabel("soil_temperature") { }
  lemma SoilTemperatureDescription() ensures GetSensorDescription("soilTemperature") == GetSensorDescription("soil_temperature") { }
  lemma SoilTemperatureColor() ensures GetSensorColor("soilTemperature") != GetSensorColor("soil_temperature") { }

  lemma SoilMoistureAlias() ensures AliasAgrees("soilMoisture", "soil_moisture") {
    SoilMoistureIcon(); SoilMoistureLabel(); SoilMoistureDescription(); SoilMoistureColor();
  }
  lemma SoilMoistureIcon() ensures GetSensorIcon("soilMoisture") == GetSensorIcon("soil_moisture") { }
  lemma SoilMoistureLabel() ensures GetSensorLabel("soilMoisture") == GetSensorLabel("soil_moisture") { }
  lemma SoilMoistureDescription() ensures GetSensorDescription("soilMoisture") == GetSensorDescription("soil_moisture") { }
  lemma SoilMoistureColor() ensures GetSensorColor("soilMoisture") != GetSensorColor("soil_moisture") { }

  lemma SoilPHAlias() ensures AliasAgrees("soilPH", "soil_ph") {
    SoilPHIcon(); SoilPHLabel(); SoilPHDescription(); SoilPHColor();
  }
  lemma SoilPHIcon() ensures GetSensorIcon("soilPH") == GetSensorIcon("soil_ph") { }
  lemma SoilPHLabel() ensures GetSensorLabel("soilPH") == GetSensorLabel("soil_ph") { }
  lemma SoilPHDescription() ensures GetSensorDescription("soilPH") == GetSensorDescription("soil_ph") { }
  lemma SoilPHColor() ensures GetSensorColor("soilPH") != GetSensorColor("soil_ph") { }

  lemma AirTemperatureAlias() ensures AliasAgrees("airTemperature", "air_temperature") {
    AirTemperatureIcon(); AirTemperatureLabel(); AirTemperatureDescription(); AirTemperatureColor();
  }
  lemma AirTemperatureIcon() ensures GetSensorIcon("airTemperature") == GetSensorIcon("air_temperature") { }
  lemma AirTemperatureLabel() ensures GetSensorLabel("airTemperature") == GetSensorLabel("air_temperature") { }
  lemma AirTemperatureDescription() ensures GetSensorDescription("airTemperature") == GetSensorDescription("air_temperature") { }
  lemma AirTemperatureColor() ensures GetSensorColor("airTemperature") != GetSensorColor("air_temperature") { }

  lemma AirHumidityAlias() ensures AliasAgrees("airHumidity", "air_humidity") {
    AirHumidityIcon(); AirHumidityLabel(); AirHumidityDescription(); AirHumidityColor();
  }
  lemma AirHumidityIcon() ensures GetSensorIcon("airHumidity") == GetSensorIcon("air_humidity") { }
  lemma AirHumidityLabel() ensures GetSensorLabel("airHumidity") == GetSensorLabel("air_humidity") { }
  lemma AirHumidityDescription() ensures GetSensorDescription("airHumidity") == GetSensorDescription("air_humidity") { }
  lemma AirHumidityColor() ensures GetSensorColor("airHumidity") != GetSensorColor("air_humidity") { }

  lemma LightIntensityAlias() ensures AliasAgrees("lightIntensity", "light_intensity") {
    LightIntensityIcon(); LightIntensityLabel(); LightIntensityDescription(); LightIntensityColor();
  }
  lemma LightIntensityIcon() ensures GetSensorIcon("lightIntensity") == GetSensorIcon("light_intensity") { }
  lemma LightIntensityLabel() ensures GetSensorLabel("lightIntensity") == GetSensorLabel("light_intensity") { }
  lemma LightIntensityDescription() ensures GetSensorDescription("lightIntensity") == GetSensorDescription("light_intensity") { }
  lemma LightIntensityColor() ensures GetSensorColor("lightIntensity") != GetSensorColor("light_intensity") { }

  /** An id with its own icon and description but no label, so that it is
      labelled with itself. */
  predicate ShownUnlabelled(id: string) {
    && id in IconMap && GetSensorIcon(id) != "mdi-gauge"
    && id !in LabelMap && GetSensorLabel(id) == id
    && GetSensorDescription(id) != ""
  }

  /** Three file-API ids have an icon, a description and a colour but no
      label, so they are labelled with their own id. */
  lemma UnlabelledIdsShowTheirId()
    ensures ShownUnlabelled("soil_conductivity")
    ensures ShownUnlabelled("air_co2")
    ensures ShownUnlabelled("air_tvoc")
  {
    SoilConductivityUnlabelled();
    AirCo2Unlabelled();
    AirTvocUnlabelled();
  }

  lemma SoilConductivityUnlabelled() ensures ShownUnlabelled("soil_conductivity") { }
  lemma AirCo2Unlabelled() ensures ShownUnlabelled("air_co2") { }
  lemma AirTvocUnlabelled() ensures ShownUnlabelled("air_tvoc") { }
}
