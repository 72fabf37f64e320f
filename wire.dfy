/**
 * What crosses the network: the broker's endpoints, the requests the CLI
 * sends and the replies it gets. The HTTP transport itself is not modelled;
 * a reply is either the `data` object of the JSON answer or the fact that the
 * request failed.
 */
module Wire {

  const BaseUrl := "https://mis.kotaksecurities.com"
  const TotpLoginEndpoint := "login/1.0/tradeApiLogin"
  const TotpValidateEndpoint := "login/1.0/tradeApiValidate"
  const PlaceOrderEndpoint := "quick/order/rule/ms/place"

  /** One HTTP POST: its URL, headers, query parameters and body fields. */
  datatype Request = Request(
    url: string,
    headers: map<string, string>,
    query: map<string, string>,
    body: map<string, string>)

  /**
   * `Answered(data)`: an HTTP success. For the two handshake steps `data` is
   * the `data` object of the JSON answer (string values only; a missing `data`
   * object is the empty map); for the order it is the whole JSON body, which
   * `place_order` returns as it is.
   * `NoAnswer`: the request raised, timed out or had an error status.
   */
  datatype Reply = Answered(data: map<string, string>) | NoAnswer

  /** `data.get(key)` as Python truthiness sees it: an absent key reads as the empty string. */
  function Field(data: map<string, string>, key: string): string {
    if key in data then data[key] else ""
  }
}
