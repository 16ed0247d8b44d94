/**
 * The messages the popup sends to the content script in the page
 * (`chrome.tabs.sendMessage` payloads), keyed by their `message` field.
 */
module Protocol {
  import opened Json

  /** The storage key under which the popup keeps its serialized state. */
  const StateKey: string := "state"

  datatype Message =
    | SetItem(key: string, value: JsonValue)
    | GetItem(key: string)
    | UpdateState(url: JsonValue, isSyncEnabled: JsonValue, isAutoplayEnabled: JsonValue)
    | Unrecognized(name: string)
}
