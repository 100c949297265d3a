/**
 * A place where services are provided, and the one-line address it shows:
 * the parts that are filled in, street first, joined by ", ".
 */
module LocationModel {
  import opened Common

  const DEFAULT_COUNTRY: string := "USA"
  const NO_ADDRESS: string := "No address"
  const ADDRESS_SEPARATOR: string := ", "

  datatype Location = Location(
    id: Id,
    organizationId: Id,
    name: string,
    address: Option<string>,
    city: Option<string>,
    state: Option<string>,
    zipCode: Option<string>,
    country: string,
    isActive: bool)

  /** A new location with the column defaults: in the USA and active. */
  function NewLocation(id: Id, organizationId: Id, name: string, address: Option<string>, city: Option<string>,
                       state: Option<string>, zipCode: Option<string>): (r: Location)
    ensures r.country == DEFAULT_COUNTRY && r.isActive
    ensures r.address == address && r.city == city && r.state == state && r.zipCode == zipCode
  {
    Location(id, organizationId, name, address, city, state, zipCode, DEFAULT_COUNTRY, true)
  }

  /** The four address fields, in the order they are shown, absent ones as "". */
  function AddressFields(loc: Location): seq<string>
  {
    [OrEmpty(loc.address), OrEmpty(loc.city), OrEmpty(loc.state), OrEmpty(loc.zipCode)]
  }

  function Filled(): string -> bool
  {
    (s: string) => s != ""
  }

  /** The parts shown: the filled-in fields, in field order. */
  function AddressParts(loc: Location): (r: seq<string>)
    ensures |r| <= 4
    ensures forall k :: 0 <= k < |r| ==> r[k] != [] && r[k] in AddressFields(loc)
  {
    Filter(AddressFields(loc), Filled())
  }

  /** `Location.full_address`: the parts collected one field at a time, then joined. */
  method FullAddress(loc: Location) returns (r: string)
    ensures AddressParts(loc) == [] ==> r == NO_ADDRESS
    ensures AddressParts(loc) != [] ==> r == Join(AddressParts(loc), ADDRESS_SEPARATOR)
  {
    var parts: seq<string> := [];
    if Truthy(loc.address) {
      parts := parts + [loc.address.value];
    }
    assert parts == Kept(loc.address);
    if Truthy(loc.city) {
      parts := parts + [loc.city.value];
    }
    assert parts == Kept(loc.address) + Kept(loc.city);
    if Truthy(loc.state) {
      parts := parts + [loc.state.value];
    }
    assert parts == Kept(loc.address) + Kept(loc.city) + Kept(loc.state);
    if Truthy(loc.zipCode) {
      parts := parts + [loc.zipCode.value];
    }
    AddressPartsCollected(loc);
    assert parts == AddressParts(loc);
    if parts != [] {
      r := Join(parts, ADDRESS_SEPARATOR);
    } else {
      r := NO_ADDRESS;
    }
  }

  function Kept(field: Option<string>): seq<string>
  {
    if Truthy(field) then [field.value] else []
  }

  /** One field kept or dropped. */
  lemma FilledOne(field: Option<string>)
    ensures Filter([OrEmpty(field)], Filled()) == Kept(field)
  {
    assert [OrEmpty(field)][1..] == [];
  }

  /** Filtering four values filters each of them in turn. */
  lemma FilterFour<T>(w: T, x: T, y: T, z: T, p: T -> bool)
    ensures Filter([w, x, y, z], p) == Filter([w], p) + Filter([x], p) + Filter([y], p) + Filter([z], p)
  {
    var yz := [y] + [z];
    FilterAppend([y], [z], p);
    var xyz := [x] + yz;
    FilterAppend([x], yz, p);
    var all := [w] + xyz;
    FilterAppend([w], xyz, p);
    assert all == [w, x, y, z];
    ConcatFour(Filter([w], p), Filter([x], p), Filter([y], p), Filter([z], p));
  }

  /** Concatenation regroups freely. */
  lemma ConcatFour<T>(a: seq<T>, b: seq<T>, c: seq<T>, d: seq<T>)
    ensures a + (b + (c + d)) == a + b + c + d
  {
  }

  /** The parts are the filled-in fields one after the other. */
  lemma AddressPartsCollected(loc: Location)
    ensures AddressParts(loc) == Kept(loc.address) + Kept(loc.city) + Kept(loc.state) + Kept(loc.zipCode)
  {
    FilterFour(OrEmpty(loc.address), OrEmpty(loc.city), OrEmpty(loc.state), OrEmpty(loc.zipCode), Filled());
    FilledOne(loc.address);
    FilledOne(loc.city);
    FilledOne(loc.state);
    FilledOne(loc.zipCode);
  }

  /** "No address" is shown exactly when none of the four fields is filled in. */
  lemma NoAddressExactly(loc: Location)
    ensures AddressParts(loc) == [] <==>
              !Truthy(loc.address) && !Truthy(loc.city) && !Truthy(loc.state) && !Truthy(loc.zipCode)
  {
    AddressPartsCollected(loc);
  }

  /** A city and a state alone show as "city, state". */
  lemma CityAndState(loc: Location)
    requires !Truthy(loc.address) && !Truthy(loc.zipCode) && Truthy(loc.city) && Truthy(loc.state)
    ensures AddressParts(loc) == [loc.city.value, loc.state.value]
    ensures Join(AddressParts(loc), ADDRESS_SEPARATOR) == loc.city.value + ", " + loc.state.value
  {
    AddressPartsCollected(loc);
    assert Join([loc.state.value], ADDRESS_SEPARATOR) == loc.state.value;
  }
}
