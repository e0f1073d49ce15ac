/**
 * The application's address record and the lookups by `id` that the
 * address-book store and the page component both perform with
 * `Array.prototype.some` and `Array.prototype.find`.
 */
module Addresses {
  import opened Wrappers

  /** A canonical address, optionally carrying the personal information the
      user attached to it before storing it in the address book. */
  datatype Address = Address(
    id: string,
    street: string,
    city: string,
    houseNumber: string,
    postcode: string,
    lat: string,
    lon: string,
    firstName: string,
    lastName: string)

  /** `s.some(address => address.id === id)` */
  predicate HasId(s: seq<Address>, id: string) {
    exists i | 0 <= i < |s| :: s[i].id == id
  }

  /** No two entries of `s` share an id. */
  ghost predicate UniqueIds(s: seq<Address>) {
    forall i, j | 0 <= i < j < |s| :: s[i].id != s[j].id
  }

  /** The position of the first entry of `s` whose id is `id`, if any. */
  function FirstIndexOf(s: seq<Address>, id: string): (r: Option<nat>)
    ensures r.None? <==> !HasId(s, id)
    ensures r.Some? ==> r.value < |s| && s[r.value].id == id && !HasId(s[..r.value], id)
  {
    if s == [] then None
    else if s[0].id == id then Some(0)
    else match FirstIndexOf(s[1..], id)
      case None =>
        assert forall i | 1 <= i < |s| :: s[i] == s[1..][i - 1];
        None
      case Some(i) =>
        assert s[..i + 1] == [s[0]] + s[1..][..i];
        Some(i + 1)
  }

  /** `s.find(address => address.id === id)`: the first entry with that id. */
  function Find(s: seq<Address>, id: string): (r: Option<Address>)
    ensures r.None? <==> !HasId(s, id)
    ensures r.Some? ==> r.value.id == id && r.value in s
    ensures r.Some? ==> exists k | 0 <= k < |s| :: s[k] == r.value && !HasId(s[..k], id)
  {
    match FirstIndexOf(s, id)
    case None => None
    case Some(k) => Some(s[k])
  }
}
