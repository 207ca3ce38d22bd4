/** The two webhook alerts the orchestrator reacts to: Models/CodatAlerts.cs. */
module AlertModel {
  import opened ApplicationModel

  datatype CodatDataConnectionStatusData = CodatDataConnectionStatusData(
    dataConnectionId: Guid,
    newStatus: string,
    platformKey: string)

  /** A data connection of the company changed status. */
  datatype CodatDataConnectionStatusAlert = CodatDataConnectionStatusAlert(
    companyId: Guid,
    data: CodatDataConnectionStatusData)

  datatype CodatDataSyncCompleteData = CodatDataSyncCompleteData(dataType: string)

  /** A data type finished synchronising over a data connection. */
  datatype CodatDataSyncCompleteAlert = CodatDataSyncCompleteAlert(
    companyId: Guid,
    dataConnectionId: Guid,
    data: CodatDataSyncCompleteData)
}
