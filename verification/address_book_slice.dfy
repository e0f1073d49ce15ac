/**
 * The address-book store slice: an ordered list of addresses that the
 * reducers update in place. `addAddress` appends only when no entry has
 * the payload's id, `removeAddress` filters out every entry with the given
 * id, `updateAddresses` replaces the list and `clearAllAddresses` empties it.
 */
module AddressBookSlice {
  import opened Wrappers
  import opened Addresses

  /** The list after `addAddress(a)`. */
  function Added(s: seq<Address>, a: Address): (r: seq<Address>)
    ensures s <= r && |r| <= |s| + 1
    ensures HasId(r, a.id)
    ensures r == s <==> HasId(s, a.id)
  {
    if HasId(s, a.id) then s
    else
      assert (s + [a])[|s|].id == a.id;
      s + [a]
  }

  /** The list after `removeAddress(id)`: `s.filter(address => address.id !== id)`. */
  function Without(s: seq<Address>, id: string): (r: seq<Address>)
    ensures |r| <= |s|
    ensures forall i | 0 <= i < |r| :: r[i].id != id
  {
    if s == [] then []
    else (if s[0].id != id then [s[0]] else []) + Without(s[1..], id)
  }

  /** The slice state `{ addresses }`; the store starts with the empty list. */
  class AddressBook {
    var addresses: seq<Address>

    constructor ()
      ensures addresses == []
    {
      addresses := [];
    }

    /** `selectAddresses` */
    function SelectAddresses(): (r: seq<Address>)
      reads this
      ensures r == addresses
      ensures forall i | 0 <= i < |r| :: SelectAddressById(r[i].id).Some?
    {
      addresses
    }

    /** `selectAddressById(id)`: the first stored entry with that id, or nothing. */
    function SelectAddressById(id: string): (r: Option<Address>)
      reads this
      ensures r.None? <==> forall i | 0 <= i < |addresses| :: addresses[i].id != id
      ensures r.Some? ==> r.value.id == id && r.value in addresses
      ensures r.Some? ==> exists k | 0 <= k < |addresses| ::
                addresses[k] == r.value && forall j | 0 <= j < k :: addresses[j].id != id
    {
      var r := Find(addresses, id);
      assert r.Some? ==> exists k | 0 <= k < |addresses| ::
        addresses[k] == r.value && forall j | 0 <= j < k :: addresses[j].id != id by {
        if r.Some? {
          var k :| 0 <= k < |addresses| && addresses[k] == r.value && !HasId(addresses[..k], id);
          assert forall j | 0 <= j < k :: addresses[..k][j] == addresses[j];
        }
      }
      r
    }

    method AddAddress(payload: Address)
      modifies this
      ensures addresses == Added(old(addresses), payload)
      ensures UniqueIds(old(addresses)) ==> UniqueIds(addresses)
    {
      var addressExists := HasId(addresses, payload.id);
      if !addressExists {
        addresses := addresses + [payload];
      }
      if UniqueIds(old(addresses)) {
        AddedKeepsUnique(old(addresses), payload);
      }
    }

    method RemoveAddress(id: string)
      modifies this
      ensures addresses == Without(old(addresses), id)
      ensures UniqueIds(old(addresses)) ==> UniqueIds(addresses)
    {
      addresses := Without(addresses, id);
      if UniqueIds(old(addresses)) {
        WithoutKeepsUnique(old(addresses), id);
      }
    }

    /** Replaces the whole list; nothing checks the payload's ids. */
    method UpdateAddresses(payload: seq<Address>)
      modifies this
      ensures addresses == payload
    {
      addresses := payload;
    }

    method ClearAllAddresses()
      modifies this
      ensures addresses == []
      ensures UniqueIds(addresses)
    {
      addresses := [];
    }
  }

  /** Adding an entry whose id is absent appends it after all earlier entries. */
  lemma AddedAppendsWhenAbsent(s: seq<Address>, a: Address)
    requires forall i | 0 <= i < |s| :: s[i].id != a.id
    ensures |Added(s, a)| == |s| + 1
    ensures Added(s, a)[..|s|] == s && Added(s, a)[|s|] == a
  {
  }

  /** Adding an entry whose id is already stored leaves the list unchanged. */
  lemma AddedUnchangedWhenPresent(s: seq<Address>, a: Address, k: nat)
    requires k < |s| && s[k].id == a.id
    ensures Added(s, a) == s
  {
  }

  /** Adding the same entry twice is the same as adding it once. */
  lemma AddedIdempotent(s: seq<Address>, a: Address)
    ensures Added(Added(s, a), a) == Added(s, a)
  {
    if !HasId(s, a.id) {
      assert (s + [a])[|s|].id == a.id;
    }
  }

  /** After `addAddress` some entry carries the payload's id. */
  lemma AddedHasId(s: seq<Address>, a: Address)
    ensures HasId(Added(s, a), a.id)
  {
    if !HasId(s, a.id) {
      assert (s + [a])[|s|].id == a.id;
    }
  }

  /** `addAddress` keeps ids unique. */
  lemma AddedKeepsUnique(s: seq<Address>, a: Address)
    requires UniqueIds(s)
    ensures UniqueIds(Added(s, a))
  {
  }

  /** An entry survives `removeAddress(id)` exactly when it was stored and has another id. */
  lemma {:induction false} WithoutKeepsOthers(s: seq<Address>, id: string, a: Address)
    ensures a in Without(s, id) <==> a in s && a.id != id
  {
    if s != [] {
      WithoutKeepsOthers(s[1..], id, a);
      assert s == [s[0]] + s[1..];
    }
  }

  /** Filtering distributes over concatenation, so the survivors keep their
      original relative order. */
  lemma {:induction false} WithoutConcat(s: seq<Address>, t: seq<Address>, id: string)
    ensures Without(s + t, id) == Without(s, id) + Without(t, id)
  {
    if s == [] {
      assert s + t == t;
    } else {
      assert (s + t)[0] == s[0] && (s + t)[1..] == s[1..] + t;
      WithoutConcat(s[1..], t, id);
      var rest, tail := Without(s[1..], id), Without(t, id);
      if s[0].id != id {
        assert Without(s + t, id) == [s[0]] + (rest + tail);
        assert Without(s, id) == [s[0]] + rest;
        assert [s[0]] + (rest + tail) == ([s[0]] + rest) + tail;
      } else {
        assert Without(s + t, id) == [] + (rest + tail);
        assert Without(s, id) == [] + rest;
      }
    }
  }

  /** Removing an id that no entry has leaves the list unchanged. */
  lemma {:induction false} WithoutAbsent(s: seq<Address>, id: string)
    requires forall i | 0 <= i < |s| :: s[i].id != id
    ensures Without(s, id) == s
  {
    if s != [] {
      WithoutAbsent(s[1..], id);
      assert s == [s[0]] + s[1..];
    }
  }

  /** Removing an id that is stored makes the list strictly shorter. */
  lemma {:induction false} WithoutShrinks(s: seq<Address>, id: string)
    ensures |Without(s, id)| <= |s|
    ensures HasId(s, id) ==> |Without(s, id)| < |s|
  {
    if s != [] {
      WithoutShrinks(s[1..], id);
      if s[0].id != id && HasId(s, id) {
        var i :| 0 <= i < |s| && s[i].id == id;
        assert s[1..][i - 1].id == id;
      }
    }
  }

  /** `removeAddress` keeps ids unique. */
  lemma {:induction false} WithoutKeepsUnique(s: seq<Address>, id: string)
    requires UniqueIds(s)
    ensures UniqueIds(Without(s, id))
  {
    if s != [] {
      var rest := Without(s[1..], id);
      WithoutKeepsUnique(s[1..], id);
      if s[0].id != id {
        forall j | 0 <= j < |rest| ensures rest[j].id != s[0].id {
          WithoutKeepsOthers(s[1..], id, rest[j]);
          var k :| 0 <= k < |s[1..]| && s[1..][k] == rest[j];
          assert s[k + 1] == rest[j];
        }
        assert Without(s, id) == [s[0]] + rest;
      }
    }
  }
}
