/** Events as the runtime sees them. */
module Events {

  /**
   * An event: its identity string (`event.id().idString()`), its runtime
   * class's canonical name, and one integer standing for its payload fields.
   */
  datatype Event = Event(id: string, eventType: string, payload: int)
}
