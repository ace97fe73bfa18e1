/** The gateway-side `event` message: a notification carrying an event id and
    arbitrary event data. */
module McpEvents {
  import opened Wrappers
  import opened Json

  const EventType := "event"

  /** Built by a builder with exactly these fields, all null by default;
      `eventData` is `VNull` for null. */
  datatype McpEvent = McpEvent(id: Option<string>, eventId: Option<string>, eventData: Value)

  /** `getPayload`: `eventId` always (JSON null when null); `eventData`, as Gson
      re-reads its own output, only when the data is non-null. */
  function EventPayload(e: McpEvent): (p: Payload)
    ensures "eventId" in p && p["eventId"] == FromOptString(e.eventId)
    ensures "eventData" in p <==> e.eventData != VNull
    ensures "eventData" in p ==> p["eventData"] == ToJsonTree(e.eventData)
    ensures p.Keys <= {"eventId", "eventData"}
  {
    var base := map["eventId" := FromOptString(e.eventId)];
    if e.eventData != VNull then base["eventData" := ToJsonTree(e.eventData)] else base
  }

  /** Whatever the event data, the emitted `eventData` holds no null-valued object
      entry, and re-serialising it is a no-op. */
  lemma EventDataIsNormalised(e: McpEvent)
    requires e.eventData != VNull
    ensures NullFreeObjects(EventPayload(e)["eventData"])
    ensures ToJsonTree(EventPayload(e)["eventData"]) == EventPayload(e)["eventData"]
  {
    ToJsonTreeNullFree(e.eventData);
    ToJsonTreeIdempotent(e.eventData);
  }
}
