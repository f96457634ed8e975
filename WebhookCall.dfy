/** The stored webhook call the job receives (the persistence layer itself is not modelled). */
module Records {

  /** One stored call: its key as given by `getKey()`, the endpoint name and URL,
      and the decoded payload. */
  datatype WebhookCall = WebhookCall(
    id: nat,
    name: string,
    url: string,
    payload: map<string, string>)
}
