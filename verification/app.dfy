/**
 * The page component: its state (the form values, the lookup results, the
 * error message and the loading flag) and the handlers that update it. The
 * address-book store is passed in rather than reached through a hook. The
 * network request is an outcome given to the handler; the address
 * transformation is a function given to it.
 */
module App {
  import opened Wrappers
  import opened JsStrings
  import opened Addresses
  import UseForm
  import AddressBookSlice
  import GetAddresses

  const NamesMandatoryMessage := "First name and last name fields mandatory!"
  const NoAddressSelectedMessage := "No address selected"
  const AddressNotFoundMessage := "Selected address not found"
  const FetchFailedMessage := "Failed to fetch addresses. Please try again."

  const FormKeys: set<string> := {"postCode", "houseNumber", "firstName", "lastName", "selectedAddress"}

  const InitialFormValues: map<string, string> :=
    map["postCode" := "", "houseNumber" := "", "firstName" := "", "lastName" := "", "selectedAddress" := ""]

  /** Every field of `FormValues` is present. */
  predicate HasFormKeys(values: map<string, string>) {
    FormKeys <= values.Keys
  }

  /** One element of `data.details` as the lookup endpoint sends it. */
  datatype RawAddress = RawAddress(
    id: string, street: string, city: string, houseNumber: string,
    postcode: string, lat: string, long: string)

  /** The object handed to `transformAddress`: the raw record with the
      searched house number, `lat` and a `lon` copied from `long`. */
  datatype TransformInput = TransformInput(
    id: string, street: string, city: string, houseNumber: string,
    postcode: string, lat: string, long: string, lon: string)

  /** How the lookup ended: a parsed `details` array, or any failure
      (a status that is not ok, a network error, a body without `details`). */
  datatype FetchOutcome = Fetched(details: seq<RawAddress>) | FetchFailed

  /** What `handlePersonSubmit` decides: an error message, or the entry to store. */
  datatype PersonSubmitDecision = Rejected(message: string) | Accepted(entry: Address)

  /** `response.ok` for an answer of the lookup endpoint: only a 200 carries details. */
  function FetchOutcomeOf(r: GetAddresses.Response<RawAddress>): (o: FetchOutcome)
    ensures o.Fetched? <==> GetAddresses.StatusCode(r) == 200
    ensures o.Fetched? ==> o.details == r.details
  {
    match r
    case Found(details) => Fetched(details)
    case _ => FetchFailed
  }

  /** `{ ...addr, houseNumber, lat: addr.lat.toString(), lon: addr.long.toString() }` */
  function PrepareForTransform(addr: RawAddress, houseNumber: string): (t: TransformInput)
    ensures t.houseNumber == houseNumber
    ensures t.lon == addr.long && t.lat == addr.lat
    ensures t.id == addr.id && t.street == addr.street && t.city == addr.city
    ensures t.postcode == addr.postcode && t.long == addr.long
  {
    TransformInput(addr.id, addr.street, addr.city, houseNumber, addr.postcode,
                   addr.lat, addr.long, addr.long)
  }

  /** `data.details.map(...)` */
  function TransformAll(details: seq<RawAddress>, houseNumber: string,
                        transform: TransformInput -> Address): (r: seq<Address>)
    ensures |r| == |details|
    ensures forall i | 0 <= i < |r| :: r[i] == transform(PrepareForTransform(details[i], houseNumber))
  {
    seq(|details|, i requires 0 <= i < |details| => transform(PrepareForTransform(details[i], houseNumber)))
  }

  /** The guard chain of `handlePersonSubmit`. */
  function DecidePersonSubmit(values: map<string, string>, addresses: seq<Address>): (d: PersonSubmitDecision)
    requires HasFormKeys(values)
    ensures d.Rejected? ==>
              d.message in {NamesMandatoryMessage, NoAddressSelectedMessage, AddressNotFoundMessage}
    ensures d.Accepted? ==>
              && d.entry.id == values["selectedAddress"] != ""
              && d.entry.firstName == Trim(values["firstName"]) != ""
              && d.entry.lastName == Trim(values["lastName"]) != ""
  {
    var firstName, lastName, selected := values["firstName"], values["lastName"], values["selectedAddress"];
    if Trim(firstName) == "" || Trim(lastName) == "" then
      Rejected(NamesMandatoryMessage)
    else if selected == "" || |addresses| == 0 then
      Rejected(NoAddressSelectedMessage)
    else
      match Find(addresses, selected)
      case None => Rejected(AddressNotFoundMessage)
      case Some(found) => Accepted(found.(firstName := Trim(firstName), lastName := Trim(lastName)))
  }

  /** A blank first or last name is reported before anything else. */
  lemma BlankNameRejectedFirst(values: map<string, string>, addresses: seq<Address>)
    requires HasFormKeys(values)
    requires AllWhiteSpace(values["firstName"]) || AllWhiteSpace(values["lastName"])
    ensures DecidePersonSubmit(values, addresses) == Rejected(NamesMandatoryMessage)
  {
  }

  /** With both names filled in, an empty selection or an empty result list
      is reported as no address selected. */
  lemma NoSelectionRejected(values: map<string, string>, addresses: seq<Address>)
    requires HasFormKeys(values)
    requires !AllWhiteSpace(values["firstName"]) && !AllWhiteSpace(values["lastName"])
    requires values["selectedAddress"] == "" || addresses == []
    ensures DecidePersonSubmit(values, addresses) == Rejected(NoAddressSelectedMessage)
  {
  }

  /** A selection that no listed address has is reported as not found. */
  lemma UnknownSelectionRejected(values: map<string, string>, addresses: seq<Address>)
    requires HasFormKeys(values)
    requires !AllWhiteSpace(values["firstName"]) && !AllWhiteSpace(values["lastName"])
    requires values["selectedAddress"] != "" && addresses != []
    requires forall i | 0 <= i < |addresses| :: addresses[i].id != values["selectedAddress"]
    ensures DecidePersonSubmit(values, addresses) == Rejected(AddressNotFoundMessage)
  {
  }

  /** The submission is accepted exactly when both names have a non-blank
      character and some listed address has the selected, non-empty id. */
  lemma AcceptedIff(values: map<string, string>, addresses: seq<Address>)
    requires HasFormKeys(values)
    ensures DecidePersonSubmit(values, addresses).Accepted? <==>
              && !AllWhiteSpace(values["firstName"]) && !AllWhiteSpace(values["lastName"])
              && values["selectedAddress"] != ""
              && exists i | 0 <= i < |addresses| :: addresses[i].id == values["selectedAddress"]
  {
    var firstName, lastName, selected := values["firstName"], values["lastName"], values["selectedAddress"];
    assert Trim(firstName) == "" <==> AllWhiteSpace(firstName);
    assert Trim(lastName) == "" <==> AllWhiteSpace(lastName);
    assert Find(addresses, selected).Some? <==> HasId(addresses, selected);
  }

  /** The accepted entry is the first listed address with the selected id,
      with the trimmed names put on it and every other field kept. */
  lemma AcceptedEntryIsFirstMatch(values: map<string, string>, addresses: seq<Address>)
    requires HasFormKeys(values)
    requires DecidePersonSubmit(values, addresses).Accepted?
    ensures var e := DecidePersonSubmit(values, addresses).entry;
            && e.id == values["selectedAddress"]
            && e.firstName == Trim(values["firstName"]) && e.lastName == Trim(values["lastName"])
            && exists k | 0 <= k < |addresses| ::
                 && addresses[k].(firstName := e.firstName, lastName := e.lastName) == e
                 && forall j | 0 <= j < k :: addresses[j].id != values["selectedAddress"]
  {
    var selected := values["selectedAddress"];
    var found := Find(addresses, selected).value;
    var k :| 0 <= k < |addresses| && addresses[k] == found && !HasId(addresses[..k], selected);
    assert forall j | 0 <= j < k :: addresses[..k][j] == addresses[j];
  }

  /** Selecting the only listed address and entering "Jane" and "Doe" stores
      that address, with those names, in an empty address book. */
  lemma JaneDoeExample(values: map<string, string>, a: Address)
    requires HasFormKeys(values)
    requires values["firstName"] == "Jane" && values["lastName"] == "Doe"
    requires a.id != "" && values["selectedAddress"] == a.id
    ensures DecidePersonSubmit(values, [a]).Accepted?
    ensures AddressBookSlice.Added([], DecidePersonSubmit(values, [a]).entry)
            == [a.(firstName := "Jane", lastName := "Doe")]
  {
    assert !IsWhiteSpace('J') && !IsWhiteSpace('e') && !IsWhiteSpace('D');
    TrimOfUnpadded("Jane");
    TrimOfUnpadded("Doe");
    assert Trim(values["firstName"]) == "Jane" && Trim(values["lastName"]) == "Doe";
    assert [a][0].id == a.id;
    assert Find([a], a.id) == Some(a);
    var e := a.(firstName := "Jane", lastName := "Doe");
    assert DecidePersonSubmit(values, [a]) == Accepted(e);
    assert !HasId([], e.id);
  }

  /** A request the lookup endpoint rejects takes the client's failure path. */
  lemma InvalidLookupFails(postCode: string, houseNumber: string,
                           generate: (string, string) -> Option<seq<RawAddress>>)
    requires !GetAddresses.RequestValid(GetAddresses.Query(Some(postCode), Some(houseNumber)))
    ensures FetchOutcomeOf(GetAddresses.Handle(GetAddresses.Query(Some(postCode), Some(houseNumber)), generate))
            == FetchFailed
  {
    GetAddresses.BadRequestIffInvalid(GetAddresses.Query(Some(postCode), Some(houseNumber)), generate);
  }

  /** The component's state; `book` is the address-book store it adds to. */
  class AppState {
    var form: UseForm.Form<string, string>
    var error: Option<string>
    var addresses: seq<Address>
    var isLoading: bool
    const book: AddressBookSlice.AddressBook

    ghost predicate Valid()
      reads this
    {
      form.initialValues == InitialFormValues && HasFormKeys(form.values)
    }

    constructor (book: AddressBookSlice.AddressBook)
      ensures Valid() && this.book == book
      ensures form.values == InitialFormValues
      ensures error == None && addresses == [] && !isLoading
    {
      this.book := book;
      form := UseForm.UseForm(InitialFormValues);
      error := None;
      addresses := [];
      isLoading := false;
    }

    /** An input or radio `onChange`. */
    method HandleChange(name: string, value: string)
      requires Valid()
      modifies this
      ensures Valid()
      ensures form == UseForm.HandleChange(old(form), name, value)
      ensures error == old(error) && addresses == old(addresses) && isLoading == old(isLoading)
    {
      form := UseForm.HandleChange(form, name, value);
    }

    /** `handlePersonSubmit`: on a rejection only the error is set; on
        acceptance the entry goes to the store and the form is reset. */
    method HandlePersonSubmit()
      requires Valid()
      modifies this, book
      ensures Valid()
      ensures addresses == old(addresses) && isLoading == old(isLoading)
      ensures match old(DecidePersonSubmit(form.values, addresses))
              case Rejected(message) =>
                && error == Some(message) && form == old(form)
                && book.addresses == old(book.addresses)
              case Accepted(entry) =>
                && book.addresses == AddressBookSlice.Added(old(book.addresses), entry)
                && form.values == InitialFormValues && error == old(error)
    {
      var decision := DecidePersonSubmit(form.values, addresses);
      match decision
      case Rejected(message) =>
        error := Some(message);
      case Accepted(entry) =>
        book.AddAddress(entry);
        form := UseForm.ResetForm(form);
    }

    /** `handleClearAll`: the store is left alone. */
    method HandleClearAll()
      requires Valid()
      modifies this
      ensures Valid()
      ensures form.values == InitialFormValues && addresses == [] && error == None
      ensures isLoading == old(isLoading) && book.addresses == old(book.addresses)
    {
      form := UseForm.ResetForm(form);
      addresses := [];
      error := None;
    }

    /** The synchronous start of `handleAddressSubmit`, up to the request.
        Returns the house number the handler's closure captured. */
    method BeginAddressSubmit() returns (houseNumber: string)
      requires Valid()
      modifies this
      ensures Valid() && form == old(form)
      ensures houseNumber == form.values["houseNumber"]
      ensures error == None && addresses == [] && isLoading
    {
      error := None;
      addresses := [];
      isLoading := true;
      houseNumber := form.values["houseNumber"];
    }

    /** The end of `handleAddressSubmit` once the request has settled. */
    method CompleteAddressSubmit(houseNumber: string, outcome: FetchOutcome,
                                 transform: TransformInput -> Address)
      requires Valid()
      modifies this
      ensures Valid() && form == old(form) && !isLoading
      ensures match outcome
              case Fetched(details) =>
                addresses == TransformAll(details, houseNumber, transform) && error == old(error)
              case FetchFailed =>
                addresses == old(addresses) && error == Some(FetchFailedMessage)
    {
      match outcome {
        case Fetched(details) =>
          addresses := TransformAll(details, houseNumber, transform);
        case FetchFailed =>
          error := Some(FetchFailedMessage);
      }
      isLoading := false;
    }

    /** `handleAddressSubmit` with the request settled as `outcome`. */
    method HandleAddressSubmit(outcome: FetchOutcome, transform: TransformInput -> Address)
      requires Valid()
      modifies this
      ensures Valid() && form == old(form) && !isLoading
      ensures book.addresses == old(book.addresses)
      ensures match outcome
              case Fetched(details) =>
                && addresses == TransformAll(details, old(form.values["houseNumber"]), transform)
                && error == None
              case FetchFailed =>
                addresses == [] && error == Some(FetchFailedMessage)
    {
      var houseNumber := BeginAddressSubmit();
      CompleteAddressSubmit(houseNumber, outcome, transform);
    }
  }
}
