/**
 * The auth/account store: the signed-in user, the token, saved addresses and
 * payment methods. Every action awaits a backend call and then mirrors the
 * result into local state; here the backend's answer is a parameter
 * (`Some(data)` / `true` for success, `None` / `false` for a failure), and the
 * fixed message the action throws on failure is its `error` result.
 */
module Auth {
  import opened Wrappers
  import opened Seqs

  datatype User = User(id: string, email: string, firstName: string, lastName: string, phoneNumber: Option<string>)

  datatype Address = Address(
    id: string, name: string, street: string, city: string, state: string,
    postalCode: string, country: string, isDefault: bool)

  datatype PaymentKind = Card | PayPal

  datatype PaymentMethod = PaymentMethod(
    id: string, kind: PaymentKind, lastFour: Option<string>, cardBrand: Option<string>,
    expiryDate: Option<string>, isDefault: bool)

  /** The profile form: `phoneNumber` is None when the key is absent. */
  datatype ProfileUpdate = ProfileUpdate(firstName: string, lastName: string, phoneNumber: Option<string>)

  /** A `Partial<Address>`: a None field is a key the update does not carry. */
  datatype AddressPatch = AddressPatch(
    id: Option<string>, name: Option<string>, street: Option<string>, city: Option<string>,
    state: Option<string>, postalCode: Option<string>, country: Option<string>, isDefault: Option<bool>)

  /** What `/auth/login` and `/auth/register` answer with. */
  datatype Session = Session(token: string, user: User)

  /** `{ ...addr, ...patch }`: each key the patch carries overrides the address's. */
  function MergeAddress(a: Address, patch: AddressPatch): Address
  {
    Address(
      patch.id.GetOr(a.id), patch.name.GetOr(a.name), patch.street.GetOr(a.street),
      patch.city.GetOr(a.city), patch.state.GetOr(a.state), patch.postalCode.GetOr(a.postalCode),
      patch.country.GetOr(a.country), patch.isDefault.GetOr(a.isDefault))
  }

  /** Merging the same patch twice is merging it once. */
  lemma MergeIdempotent(a: Address, patch: AddressPatch)
    ensures MergeAddress(MergeAddress(a, patch), patch) == MergeAddress(a, patch)
  {
  }

  /** An empty patch leaves the address as it was. */
  lemma MergeEmpty(a: Address)
    ensures MergeAddress(a, AddressPatch(None, None, None, None, None, None, None, None)) == a
  {
  }

  /** `{ ...user, ...data }`; with no user, the keys a user would have beyond the form's are left empty. */
  function ApplyProfile(user: Option<User>, data: ProfileUpdate): (r: User)
    ensures r.firstName == data.firstName && r.lastName == data.lastName
    ensures user.Some? ==> r.id == user.value.id && r.email == user.value.email
    ensures r.phoneNumber == if data.phoneNumber.Some? then data.phoneNumber
                             else if user.Some? then user.value.phoneNumber else None
  {
    var base := user.GetOr(User("", "", "", "", None));
    base.(firstName := data.firstName, lastName := data.lastName,
          phoneNumber := if data.phoneNumber.Some? then data.phoneNumber else base.phoneNumber)
  }

  /** The `map` of `updateAddress`. */
  function UpdateAddresses(addresses: seq<Address>, id: string, patch: AddressPatch): (r: seq<Address>)
    ensures |r| == |addresses|
    ensures forall i :: 0 <= i < |r| ==>
      r[i] == if addresses[i].id == id then MergeAddress(addresses[i], patch) else addresses[i]
  {
    seq(|addresses|, i requires 0 <= i < |addresses| =>
      if addresses[i].id == id then MergeAddress(addresses[i], patch) else addresses[i])
  }

  /** Applying the same address update twice is applying it once, whatever the patch does to the id. */
  lemma UpdateAddressesIdempotent(addresses: seq<Address>, id: string, patch: AddressPatch)
    ensures UpdateAddresses(UpdateAddresses(addresses, id, patch), id, patch) == UpdateAddresses(addresses, id, patch)
  {
    var once := UpdateAddresses(addresses, id, patch);
    forall i | 0 <= i < |addresses|
      ensures UpdateAddresses(once, id, patch)[i] == once[i]
    {
      if addresses[i].id == id {
        MergeIdempotent(addresses[i], patch);
      }
    }
  }

  /** The `filter` of `removeAddress`. */
  function RemoveAddressId(addresses: seq<Address>, id: string): (r: seq<Address>)
    ensures forall i :: 0 <= i < |r| ==> r[i].id != id
    ensures IsSubsequence(r, addresses)
    ensures forall i :: 0 <= i < |addresses| && addresses[i].id != id ==> addresses[i] in r
    ensures forall x :: multiset(r)[x] == if x.id != id then multiset(addresses)[x] else 0
  {
    FilterCount(addresses, (a: Address) => a.id != id);
    FilterIsSubsequence(addresses, (a: Address) => a.id != id);
    FilterKeeps(addresses, (a: Address) => a.id != id);
    Filter(addresses, (a: Address) => a.id != id)
  }

  /** The `filter` of `removePaymentMethod`. */
  function RemoveMethodId(methods: seq<PaymentMethod>, id: string): (r: seq<PaymentMethod>)
    ensures forall i :: 0 <= i < |r| ==> r[i].id != id
    ensures IsSubsequence(r, methods)
    ensures forall i :: 0 <= i < |methods| && methods[i].id != id ==> methods[i] in r
    ensures forall x :: multiset(r)[x] == if x.id != id then multiset(methods)[x] else 0
  {
    FilterCount(methods, (m: PaymentMethod) => m.id != id);
    FilterIsSubsequence(methods, (m: PaymentMethod) => m.id != id);
    FilterKeeps(methods, (m: PaymentMethod) => m.id != id);
    Filter(methods, (m: PaymentMethod) => m.id != id)
  }

  /** The `map` of `setDefaultPaymentMethod`. */
  function MarkDefault(methods: seq<PaymentMethod>, id: string): (r: seq<PaymentMethod>)
    ensures |r| == |methods|
    ensures forall i :: 0 <= i < |r| ==> r[i].isDefault == (methods[i].id == id)
    ensures forall i :: 0 <= i < |r| ==> r[i].(isDefault := methods[i].isDefault) == methods[i]
  {
    seq(|methods|, i requires 0 <= i < |methods| => methods[i].(isDefault := methods[i].id == id))
  }

  predicate UniqueMethodIds(methods: seq<PaymentMethod>)
  {
    forall i, j :: 0 <= i < j < |methods| ==> methods[i].id != methods[j].id
  }

  /** With unique ids and `id` present there is exactly one default afterwards; with `id` absent there is none. */
  lemma MarkDefaultExactlyOne(methods: seq<PaymentMethod>, id: string)
    ensures UniqueMethodIds(methods) ==> forall k :: 0 <= k < |methods| && methods[k].id == id ==>
      forall j :: 0 <= j < |methods| && MarkDefault(methods, id)[j].isDefault ==> j == k
    ensures (forall i :: 0 <= i < |methods| ==> methods[i].id != id) ==>
      forall j :: 0 <= j < |methods| ==> !MarkDefault(methods, id)[j].isDefault
  {
  }

  class AuthStore {
    var token: Option<string>
    var user: Option<User>
    var addresses: seq<Address>
    var paymentMethods: seq<PaymentMethod>
    var isAuthenticated: bool

    constructor ()
      ensures token == None && user == None && !isAuthenticated
      ensures addresses == [] && paymentMethods == []
    {
      token, user := None, None;
      addresses, paymentMethods := [], [];
      isAuthenticated := false;
    }

    method SetAuth(newToken: string, newUser: User)
      modifies this
      ensures token == Some(newToken) && user == Some(newUser) && isAuthenticated
      ensures addresses == old(addresses) && paymentMethods == old(paymentMethods)
    {
      token, user, isAuthenticated := Some(newToken), Some(newUser), true;
    }

    /** Success stores the session and marks the store authenticated; failure changes nothing. */
    method Login(email: string, password: string, response: Option<Session>) returns (error: Option<string>)
      modifies this
      ensures response.None? ==> error == Some("Login failed") && unchanged(this)
      ensures response.Some? ==> error == None
      ensures response.Some? ==> token == Some(response.value.token) && user == Some(response.value.user) && isAuthenticated
      ensures addresses == old(addresses) && paymentMethods == old(paymentMethods)
    {
      if response.None? {
        return Some("Login failed");
      }
      token, user, isAuthenticated := Some(response.value.token), Some(response.value.user), true;
      error := None;
    }

    method Register(name: string, email: string, password: string, response: Option<Session>) returns (error: Option<string>)
      modifies this
      ensures response.None? ==> error == Some("Registration failed") && unchanged(this)
      ensures response.Some? ==> error == None
      ensures response.Some? ==> token == Some(response.value.token) && user == Some(response.value.user) && isAuthenticated
      ensures addresses == old(addresses) && paymentMethods == old(paymentMethods)
    {
      if response.None? {
        return Some("Registration failed");
      }
      token, user, isAuthenticated := Some(response.value.token), Some(response.value.user), true;
      error := None;
    }

    /** Signs out; the saved addresses and payment methods stay. */
    method Logout()
      modifies this
      ensures token == None && user == None && !isAuthenticated
      ensures addresses == old(addresses) && paymentMethods == old(paymentMethods)
    {
      token, user, isAuthenticated := None, None, false;
    }

    method UpdateProfile(data: ProfileUpdate, ok: bool) returns (error: Option<string>)
      modifies this
      ensures !ok ==> error == Some("Profile update failed") && unchanged(this)
      ensures ok ==> error == None && user == Some(ApplyProfile(old(user), data))
      ensures token == old(token) && isAuthenticated == old(isAuthenticated)
      ensures addresses == old(addresses) && paymentMethods == old(paymentMethods)
    {
      if !ok {
        return Some("Profile update failed");
      }
      user := Some(ApplyProfile(user, data));
      error := None;
    }

    /** Appends the record the backend returns (with its server-assigned id). */
    method AddAddress(response: Option<Address>) returns (error: Option<string>)
      modifies this
      ensures response.None? ==> error == Some("Failed to add address") && unchanged(this)
      ensures response.Some? ==> error == None && addresses == old(addresses) + [response.value]
      ensures token == old(token) && user == old(user) && isAuthenticated == old(isAuthenticated)
      ensures paymentMethods == old(paymentMethods)
    {
      if response.None? {
        return Some("Failed to add address");
      }
      addresses := addresses + [response.value];
      error := None;
    }

    /** Merges the patch into every address with this id; length, order and the other entries stay. */
    method UpdateAddress(id: string, patch: AddressPatch, ok: bool) returns (error: Option<string>)
      modifies this
      ensures !ok ==> error == Some("Failed to update address") && unchanged(this)
      ensures ok ==> error == None && |addresses| == |old(addresses)|
      ensures ok ==> forall i :: 0 <= i < |addresses| ==>
        addresses[i] == if old(addresses)[i].id == id then MergeAddress(old(addresses)[i], patch) else old(addresses)[i]
      ensures token == old(token) && user == old(user) && isAuthenticated == old(isAuthenticated)
      ensures paymentMethods == old(paymentMethods)
    {
      if !ok {
        return Some("Failed to update address");
      }
      addresses := UpdateAddresses(addresses, id, patch);
      error := None;
    }

    method RemoveAddress(id: string, ok: bool) returns (error: Option<string>)
      modifies this
      ensures !ok ==> error == Some("Failed to remove address") && unchanged(this)
      ensures ok ==> error == None && addresses == RemoveAddressId(old(addresses), id)
      ensures token == old(token) && user == old(user) && isAuthenticated == old(isAuthenticated)
      ensures paymentMethods == old(paymentMethods)
    {
      if !ok {
        return Some("Failed to remove address");
      }
      addresses := RemoveAddressId(addresses, id);
      error := None;
    }

    method AddPaymentMethod(response: Option<PaymentMethod>) returns (error: Option<string>)
      modifies this
      ensures response.None? ==> error == Some("Failed to add payment method") && unchanged(this)
      ensures response.Some? ==> error == None && paymentMethods == old(paymentMethods) + [response.value]
      ensures token == old(token) && user == old(user) && isAuthenticated == old(isAuthenticated)
      ensures addresses == old(addresses)
    {
      if response.None? {
        return Some("Failed to add payment method");
      }
      paymentMethods := paymentMethods + [response.value];
      error := None;
    }

    method RemovePaymentMethod(id: string, ok: bool) returns (error: Option<string>)
      modifies this
      ensures !ok ==> error == Some("Failed to remove payment method") && unchanged(this)
      ensures ok ==> error == None && paymentMethods == RemoveMethodId(old(paymentMethods), id)
      ensures token == old(token) && user == old(user) && isAuthenticated == old(isAuthenticated)
      ensures addresses == old(addresses)
    {
      if !ok {
        return Some("Failed to remove payment method");
      }
      paymentMethods := RemoveMethodId(paymentMethods, id);
      error := None;
    }

    /** Every entry's `isDefault` becomes "its id is `id`"; all other fields stay. */
    method SetDefaultPaymentMethod(id: string, ok: bool) returns (error: Option<string>)
      modifies this
      ensures !ok ==> error == Some("Failed to set default payment method") && unchanged(this)
      ensures ok ==> error == None && paymentMethods == MarkDefault(old(paymentMethods), id)
      ensures token == old(token) && user == old(user) && isAuthenticated == old(isAuthenticated)
      ensures addresses == old(addresses)
    {
      if !ok {
        return Some("Failed to set default payment method");
      }
      paymentMethods := MarkDefault(paymentMethods, id);
      error := None;
    }

    /** A request with no local effect: only the outcome is reported. */
    method ResetPassword(email: string, ok: bool) returns (error: Option<string>)
      ensures error == if ok then None else Some("Password reset request failed")
    {
      error := if ok then None else Some("Password reset request failed");
    }

    method ChangePassword(currentPassword: string, newPassword: string, ok: bool) returns (error: Option<string>)
      ensures error == if ok then None else Some("Password change failed")
    {
      error := if ok then None else Some("Password change failed");
    }
  }
}
