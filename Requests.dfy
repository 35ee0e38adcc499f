/**
 * The request shapes the HTTP layer decodes and hands to the services
 * (internal/handler/models/node.go and script.go).
 */
module Requests {

  import opened Json

  /** Body and header specs arrive as raw decoded JSON, one entry per field or header name. */
  datatype AddNodeRequest = AddNodeRequest(
    name: string,
    body: map<string, JsonValue>,
    requestMime: string,
    responseMime: string,
    url: string,
    httpMethod: string,
    headers: map<string, JsonValue>,
    responseDirection: string,
    apiKey: string)

  /**
   * A workflow maps a step key (a decimal string) to the step's entries:
   * node ids or nested lists of them. Presets map a node id to field or
   * header name to the preset value.
   */
  datatype CreateScriptRequest = CreateScriptRequest(
    name: string,
    workflow: map<string, seq<JsonValue>>,
    bodyPresets: map<string, map<string, JsonValue>>,
    headerPresets: map<string, map<string, string>>)

  datatype RunScriptRequest = RunScriptRequest(id: string, enterData: string)
}
