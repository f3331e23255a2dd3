/** Wire types of the ingestion API (crates/keplor-server/src/schema.rs). */
module Schema {
  import opened MachineInts
  import opened Events

  datatype IngestResponse = IngestResponse(id: EventId, costNanodollars: i64, model: string, provider: string)
}
