/** Types shared by both checkout pages. */
module Shared {

  datatype Option<+T> = None | Some(value: T)

  /** A purchasable bundle or result-checker voucher. `price` is held in
      pesewas (hundredths of a cedi), so 12.00 GHS is 1200. */
  datatype Package = Package(
    id: string,
    serviceId: string,
    name: string,
    dataAmount: string,
    price: nat,
    validity: string)

  /** `names[id] || id`: the display name of an id, or the id itself when it
      has no non-empty display name. The result is empty only for an empty
      id. */
  function DisplayName(names: map<string, string>, id: string): (r: string)
    ensures id !in names ==> r == id
    ensures id in names && names[id] != "" ==> r == names[id]
    ensures r == id || (id in names && r == names[id])
    ensures r == "" ==> id == ""
  {
    if id in names && names[id] != "" then names[id] else id
  }
}
