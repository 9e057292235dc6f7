/** The stored records: raw events and the two kinds of rules. */
module Models {
  import opened Wrappers
  import opened Json

  /**
   * A row of the raw event log, holding the values exactly as handed to
   * `Event.objects.create`. The timestamp and the utm_* columns, which the
   * collection endpoint never sets, are not part of this model.
   */
  datatype Event = Event(aid: Value, event: Value, path: Value, userAgent: Option<string>)

  /** A server-side forwarding rule (listen_event -> fire_event with a parameter mapping). */
  datatype GA4Rule = GA4Rule(
    listenEvent: string,
    fireEvent: string,
    urlContains: Option<string>,
    paramsMap: Value,
    active: bool)

  /** A browser-side instrumentation rule, served to the tracking script. */
  datatype TrackingRule = TrackingRule(
    listenEvent: string,
    selector: Option<string>,
    urlContains: Option<string>,
    fireEvent: string,
    paramsMap: Value,
    customJs: Option<string>,
    active: bool)
}
