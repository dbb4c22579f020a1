/**
  * The rows of the raw telemetry batch and of the four relational tables the crawler
  * derives from it. Timestamps and coordinates are carried as opaque text: the crawler
  * only copies and compares them. A cell that pandas would hold as NaN is an absent
  * Option (AppID) or an absent map key (category cells).
  */
module Records {
  import opened Wrappers

  /** A 0/1 indicator column value. */
  type Bit = b: int | 0 <= b <= 1

  /** One raw telemetry record. */
  datatype RawRow = RawRow(
    timestamp: string,
    deviceId: string,
    appName: string,
    appCategory: string,
    ip: string,
    isp: string,
    latitude: string,
    longitude: string,
    internetType: string)

  type Batch = seq<RawRow>

  datatype DeviceRow = DeviceRow(deviceId: string, iOS: Bit, android: Bit)

  /** An application row: its hash-derived id, its normalised name and its category cells. */
  datatype AppRow = AppRow(appId: string, appName: string, categories: map<string, Bit>)

  /** The application table: the category column labels and the rows. */
  datatype AppTable = AppTable(columns: set<string>, rows: seq<AppRow>)

  datatype IpRow = IpRow(ip: string, isp: string)

  datatype EventRow = EventRow(
    timestamp: string,
    deviceId: string,
    appId: Option<string>,
    cellular: Bit,
    latitude: string,
    longitude: string)

  // Key columns, as functions for Dedup.

  function RawDeviceId(r: RawRow): string { r.deviceId }
  function RawIp(r: RawRow): string { r.ip }
  function DeviceKey(d: DeviceRow): string { d.deviceId }
  function AppKey(a: AppRow): string { a.appName }
  function IpKey(r: IpRow): string { r.ip }

  /** Every category cell of every row belongs to a column of the table. */
  predicate CellsInColumns(t: AppTable) {
    forall i :: 0 <= i < |t.rows| ==> t.rows[i].categories.Keys <= t.columns
  }

  /** Every event row carries an AppID. */
  predicate EventsResolved(events: seq<EventRow>) {
    forall i :: 0 <= i < |events| ==> events[i].appId.Some?
  }
}
