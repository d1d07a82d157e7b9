/**
 * The profile page: editing the profile record, saving it (update when a row
 * exists, insert otherwise), and keeping a single default address.
 */
module ProfilePage {

  import opened Types
  import opened Backend
  import Seqs
  import Text

  /** One call of `handleProfileUpdate(field, value)`, by field. */
  datatype ProfileEdit = SetName(name: string) | SetAge(age: Option<int>) | SetGender(gender: string) | SetPhone(phone: string)

  /** `prev ? { ...prev, [field]: value } : null`. */
  function ApplyEdit(profile: Option<ProfileRow>, e: ProfileEdit): (r: Option<ProfileRow>)
    ensures r.None? <==> profile.None?
    ensures r.Some? ==> r.value.id == profile.value.id && r.value.email == profile.value.email
    ensures r.Some? && !e.SetName? ==> r.value.name == profile.value.name
    ensures r.Some? && !e.SetAge? ==> r.value.age == profile.value.age
    ensures r.Some? && !e.SetGender? ==> r.value.gender == profile.value.gender
    ensures r.Some? && !e.SetPhone? ==> r.value.phone == profile.value.phone
    ensures r.Some? && e.SetName? ==> r.value.name == Some(e.name)
    ensures r.Some? && e.SetAge? ==> r.value.age == e.age
    ensures r.Some? && e.SetGender? ==> r.value.gender == Some(e.gender)
    ensures r.Some? && e.SetPhone? ==> r.value.phone == Some(e.phone)
  {
    match profile
    case None => None
    case Some(p) =>
      Some(match e
        case SetName(v) => p.(name := Some(v))
        case SetAge(v) => p.(age := v)
        case SetGender(v) => p.(gender := Some(v))
        case SetPhone(v) => p.(phone := Some(v)))
  }

  /** An edit applied twice is the same as once. */
  lemma ApplyEditIdempotent(profile: Option<ProfileRow>, e: ProfileEdit)
    ensures ApplyEdit(ApplyEdit(profile, e), e) == ApplyEdit(profile, e)
  {
  }

  /** `profile.age || null`: 0 is falsy and is sent as null. */
  function AgeOrNull(age: Option<int>): (r: Option<int>)
    ensures r.Some? <==> age.Some? && age.value != 0
    ensures r.Some? ==> r == age
  {
    if age.Some? && age.value != 0 then age else None
  }

  /** The row `saveProfileChanges` writes: the signed-in identity's id and email, empty fields as null. */
  function ProfilePayload(user: Identity, p: ProfileRow): (r: ProfileRow)
    ensures r.id == user.id && r.email == user.email
    ensures r.name.Some? <==> Truthy(p.name)
    ensures r.gender.Some? <==> Truthy(p.gender)
    ensures r.phone.Some? <==> Truthy(p.phone)
    ensures r.age.Some? <==> p.age.Some? && p.age.value != 0
    ensures r.name.Some? ==> r.name == p.name
    ensures r.gender.Some? ==> r.gender == p.gender
    ensures r.phone.Some? ==> r.phone == p.phone
    ensures r.age.Some? ==> r.age == p.age
  {
    ProfileRow(user.id, OrNull(p.name), AgeOrNull(p.age), OrNull(p.gender), user.email, OrNull(p.phone))
  }

  /** The `profiles` rows with a given id. */
  function ProfileRowsFor(profiles: seq<ProfileRow>, id: string): seq<ProfileRow>
  {
    Seqs.Filter(profiles, (r: ProfileRow) => r.id == id)
  }

  /** The write of `saveProfileChanges`: update when `.single()` finds the row, insert otherwise. */
  function SaveProfileRows(profiles: seq<ProfileRow>, payload: ProfileRow): seq<ProfileRow>
  {
    if |ProfileRowsFor(profiles, payload.id)| == 1
    then Seqs.Map(profiles, (r: ProfileRow) => if r.id == payload.id then payload else r)
    else profiles + [payload]
  }

  /**
   * Save is update-or-insert, never both: from at most one row with the user's id
   * it leaves exactly one, equal to the payload, and every other row in place.
   */
  lemma {:induction false} SaveLeavesOneRow(profiles: seq<ProfileRow>, payload: ProfileRow)
    requires |ProfileRowsFor(profiles, payload.id)| <= 1
    ensures ProfileRowsFor(SaveProfileRows(profiles, payload), payload.id) == [payload]
    ensures forall r :: r in profiles && r.id != payload.id ==> r in SaveProfileRows(profiles, payload)
  {
    var same := (r: ProfileRow) => r.id == payload.id;
    var after := SaveProfileRows(profiles, payload);
    if |ProfileRowsFor(profiles, payload.id)| == 1 {
      UpdatedRowsAreThePayload(profiles, payload);
    } else {
      Seqs.FilterDropsAll(profiles, same);
      Seqs.FilterAppend(profiles, [payload], same);
    }
  }

  /** After an update by id, the rows with that id are as many as before, each the payload. */
  lemma {:induction false} UpdatedRowsAreThePayload(profiles: seq<ProfileRow>, payload: ProfileRow)
    ensures var updated := Seqs.Map(profiles, (r: ProfileRow) => if r.id == payload.id then payload else r);
      |ProfileRowsFor(updated, payload.id)| == |ProfileRowsFor(profiles, payload.id)| &&
      forall i :: 0 <= i < |ProfileRowsFor(updated, payload.id)| ==> ProfileRowsFor(updated, payload.id)[i] == payload
    decreases |profiles|
  {
    var f := (r: ProfileRow) => if r.id == payload.id then payload else r;
    if profiles != [] {
      UpdatedRowsAreThePayload(profiles[1..], payload);
      assert Seqs.Map(profiles, f)[1..] == Seqs.Map(profiles[1..], f);
    }
  }

  const AlreadyExistsMessage := "Profile already exists. Please refresh the page."
  const PermissionDeniedMessage := "Permission denied. Please check your database permissions."
  const GenericProfileError := "Error updating profile. Please try again."
  const ProfileSavedMessage := "Profile updated successfully!"

  /** The message for a failed profile save, by backend error code. */
  function ProfileErrorMessage(code: string): (r: string)
    ensures r == AlreadyExistsMessage <==> code == "23505"
    ensures r == PermissionDeniedMessage <==> code == "42501"
    ensures r == GenericProfileError <==> code != "23505" && code != "42501"
  {
    if code == "23505" then AlreadyExistsMessage
    else if code == "42501" then PermissionDeniedMessage
    else GenericProfileError
  }

  /** The address form's fields. */
  datatype AddressForm = AddressForm(line1: string, line2: string, city: string, state: string, postalCode: string, country: string)

  /** The form's initial and post-save value. */
  const EmptyAddressForm := AddressForm("", "", "", "", "", "India")

  /** Line 1, city, state and postal code must be non-blank after trimming. */
  predicate AddressComplete(f: AddressForm)
  {
    Text.Trim(f.line1) != "" && Text.Trim(f.city) != "" && Text.Trim(f.state) != "" && Text.Trim(f.postalCode) != ""
  }

  /** The required fields are exactly those not blank; line 2 and country are never checked. */
  lemma AddressCompleteMeansNotBlank(f: AddressForm)
    ensures AddressComplete(f) <==>
      !Text.IsBlank(f.line1) && !Text.IsBlank(f.city) && !Text.IsBlank(f.state) && !Text.IsBlank(f.postalCode)
    ensures AddressComplete(f) == AddressComplete(f.(line2 := "", country := ""))
  {
    Text.TrimProperties(f.line1);
    Text.TrimProperties(f.city);
    Text.TrimProperties(f.state);
    Text.TrimProperties(f.postalCode);
  }

  const AddressRequiredMessage := "Please fill in all required address fields"
  const AddressSavedMessage := "Address saved successfully!"
  const AddressDeletedMessage := "Address deleted successfully!"

  /** The row a save inserts: the form's fields, marked default. */
  function AddressFromForm(id: string, u: string, f: AddressForm): AddressRow
  {
    AddressRow(id, u, f.line1, Some(f.line2), f.city, f.state, f.postalCode, f.country, true)
  }

  /** The user's `addresses` rows. */
  function AddressesOf(addresses: seq<AddressRow>, u: string): seq<AddressRow>
  {
    Seqs.Filter(addresses, (a: AddressRow) => a.userId == u)
  }

  /** `.delete().eq('user_id', u)` on `addresses`: other users' rows stay, in order. */
  function WithoutAddressesOf(addresses: seq<AddressRow>, u: string): (r: seq<AddressRow>)
    ensures AddressesOf(r, u) == []
    ensures Seqs.IsSubsequence(r, addresses)
    ensures forall i :: 0 <= i < |addresses| && addresses[i].userId != u ==> addresses[i] in r
  {
    var r := Seqs.Filter(addresses, (a: AddressRow) => a.userId != u);
    Seqs.FilterDropsAll(r, (a: AddressRow) => a.userId == u);
    Seqs.FilterIsSubsequence(addresses, (a: AddressRow) => a.userId != u);
    r
  }

  /**
   * The `addresses` table after a successful save: the user's rows deleted when the
   * page held any, then the new row appended.
   */
  function AddressTableAfterSave(addresses: seq<AddressRow>, u: string, pageHadAddresses: bool, row: AddressRow): seq<AddressRow>
  {
    (if pageHadAddresses then WithoutAddressesOf(addresses, u) else addresses) + [row]
  }

  /**
   * When the page held addresses the user ends with exactly the new row; when the
   * page held none (even if the table had some) the new row is added to the old ones.
   */
  lemma SavedAddressesOfUser(addresses: seq<AddressRow>, u: string, pageHadAddresses: bool, row: AddressRow)
    requires row.userId == u
    ensures AddressesOf(AddressTableAfterSave(addresses, u, pageHadAddresses, row), u) ==
      if pageHadAddresses then [row] else AddressesOf(addresses, u) + [row]
  {
    var cleared := if pageHadAddresses then WithoutAddressesOf(addresses, u) else addresses;
    Seqs.FilterAppend(cleared, [row], (a: AddressRow) => a.userId == u);
  }

  /** `prev.filter(addr => addr.id !== addressId)` and the table delete by id. */
  function WithoutAddress(addresses: seq<AddressRow>, id: string): seq<AddressRow>
  {
    Seqs.Filter(addresses, (a: AddressRow) => a.id != id)
  }

  lemma DeleteAddressKeepsOthers(addresses: seq<AddressRow>, id: string)
    ensures Seqs.IsSubsequence(WithoutAddress(addresses, id), addresses)
    ensures forall i :: 0 <= i < |WithoutAddress(addresses, id)| ==> WithoutAddress(addresses, id)[i].id != id
    ensures forall i :: 0 <= i < |addresses| && addresses[i].id != id ==> addresses[i] in WithoutAddress(addresses, id)
  {
    Seqs.FilterIsSubsequence(addresses, (a: AddressRow) => a.id != id);
  }

  /** The local profile shown before a row exists. */
  function InitialProfile(user: Identity): ProfileRow
  {
    ProfileRow(user.id, Some(""), None, Some(""), user.email, Some(""))
  }

  class Profile {
    const store: Store
    const user: Identity
    var profile: Option<ProfileRow>
    var addresses: seq<AddressRow>
    var addressForm: AddressForm
    var showAddressForm: bool
    var saveMessage: string
    var isSaving: bool

    constructor (store: Store, user: Identity)
      ensures this.store == store && this.user == user
      ensures profile == None && addresses == [] && addressForm == EmptyAddressForm
      ensures !showAddressForm && saveMessage == "" && !isSaving
    {
      this.store := store;
      this.user := user;
      profile, addresses, addressForm := None, [], EmptyAddressForm;
      showAddressForm, saveMessage, isSaving := false, "", false;
    }

    /** `fetchUserData`: the first row with the user's id, or a blank local profile; the user's addresses. */
    method FetchUserData()
      modifies this`profile, this`addresses
      ensures var rows := ProfileRowsFor(store.profiles, user.id);
        profile == Some(if |rows| > 0 then rows[0] else InitialProfile(user))
      ensures addresses == AddressesOf(store.addresses, user.id)
    {
      var rows := ProfileRowsFor(store.profiles, user.id);
      profile := Some(if |rows| > 0 then rows[0] else InitialProfile(user));
      addresses := AddressesOf(store.addresses, user.id);
    }

    /** `handleProfileUpdate`. */
    method HandleProfileUpdate(e: ProfileEdit)
      modifies this`profile
      ensures profile == ApplyEdit(old(profile), e)
    {
      profile := ApplyEdit(profile, e);
    }

    /**
     * `saveProfileChanges`; `writeError` is the error the update or insert returns.
     * On success the page reloads the profile and the addresses.
     */
    method SaveProfileChanges(writeError: Option<DbError>)
      modifies this`saveMessage, this`isSaving, this`profile, this`addresses, store`profiles
      ensures old(profile).Some? ==> !isSaving
      ensures old(profile).None? ==> unchanged(this) && unchanged(store)
      ensures old(profile).Some? && writeError.Some? ==>
        && store.profiles == old(store.profiles) && saveMessage == ProfileErrorMessage(writeError.value.code)
        && profile == old(profile) && addresses == old(addresses)
      ensures old(profile).Some? && writeError.None? ==>
        && store.profiles == SaveProfileRows(old(store.profiles), ProfilePayload(user, old(profile).value))
        && saveMessage == ProfileSavedMessage
        && addresses == AddressesOf(store.addresses, user.id)
        && (var rows := ProfileRowsFor(store.profiles, user.id);
            profile == Some(if |rows| > 0 then rows[0] else InitialProfile(user)))
        && (|ProfileRowsFor(old(store.profiles), user.id)| <= 1 ==> profile == Some(ProfilePayload(user, old(profile).value)))
    {
      if profile.None? {
        return;
      }
      isSaving := true;
      var payload := ProfilePayload(user, profile.value);
      if writeError.Some? {
        saveMessage := ProfileErrorMessage(writeError.value.code);
      } else {
        if |ProfileRowsFor(store.profiles, user.id)| <= 1 {
          SaveLeavesOneRow(store.profiles, payload);
        }
        store.profiles := SaveProfileRows(store.profiles, payload);
        saveMessage := ProfileSavedMessage;
        FetchUserData();
      }
      isSaving := false;
    }

    /** `handleAddressFormChange`, for the whole form. */
    method SetAddressForm(f: AddressForm)
      modifies this`addressForm
      ensures addressForm == f
    {
      addressForm := f;
    }

    /**
     * `saveAddress`: validate, delete the user's rows when the page holds any,
     * insert the form as the default address, reset the form and reload.
     */
    method SaveAddress(deleteError: Option<DbError>, insertError: Option<DbError>, refreshFails: bool)
      modifies this`saveMessage, this`isSaving, this`addresses, this`addressForm, this`showAddressForm
      modifies store`addresses, store`nextId
      ensures AddressComplete(old(addressForm)) ==> !isSaving
      ensures !AddressComplete(old(addressForm)) ==>
        saveMessage == AddressRequiredMessage && unchanged(store) && isSaving == old(isSaving) &&
        addresses == old(addresses) && addressForm == old(addressForm) && showAddressForm == old(showAddressForm)
      ensures AddressComplete(old(addressForm)) ==> SavedAsWritten(deleteError, insertError, refreshFails)
    {
      if !AddressComplete(addressForm) {
        saveMessage := AddressRequiredMessage;
        return;
      }
      WriteAddress(deleteError, insertError, refreshFails);
    }

    /** The outcome of the writes of `saveAddress` once the form is valid. */
    twostate predicate SavedAsWritten(deleteError: Option<DbError>, insertError: Option<DbError>, refreshFails: bool)
      reads this, store
    {
      && (|old(addresses)| > 0 && deleteError.Some? ==>
            saveMessage == "Error saving address: " + deleteError.value.message && unchanged(store) &&
            addressForm == old(addressForm) && addresses == old(addresses) && showAddressForm == old(showAddressForm))
      && ((|old(addresses)| == 0 || deleteError.None?) && insertError.Some? ==>
            saveMessage == "Error saving address: " + insertError.value.message && addressForm == old(addressForm) &&
            addresses == old(addresses) && showAddressForm == old(showAddressForm) && store.nextId == old(store.nextId) &&
            store.addresses == (if |old(addresses)| > 0 then WithoutAddressesOf(old(store.addresses), user.id) else old(store.addresses)))
      && ((|old(addresses)| == 0 || deleteError.None?) && insertError.None? ==>
            var row := AddressFromForm(RowId(old(store.nextId)), user.id, old(addressForm));
            && store.addresses == AddressTableAfterSave(old(store.addresses), user.id, |old(addresses)| > 0, row)
            && addresses == (if refreshFails then old(addresses)
                             else if |old(addresses)| > 0 then [row] else AddressesOf(old(store.addresses), user.id) + [row])
            && addressForm == EmptyAddressForm && !showAddressForm
            && saveMessage == AddressSavedMessage)
    }

    /** The delete (only when the page holds addresses) and the insert of `saveAddress`. */
    method WriteAddress(deleteError: Option<DbError>, insertError: Option<DbError>, refreshFails: bool)
      modifies this`saveMessage, this`isSaving, this`addresses, this`addressForm, this`showAddressForm
      modifies store`addresses, store`nextId
      ensures !isSaving
      ensures SavedAsWritten(deleteError, insertError, refreshFails)
    {
      isSaving := true;
      var hadAddresses := |addresses| > 0;
      if hadAddresses && deleteError.Some? {
        saveMessage := "Error saving address: " + deleteError.value.message;
        isSaving := false;
        return;
      }
      if insertError.Some? {
        if hadAddresses {
          store.addresses := WithoutAddressesOf(store.addresses, user.id);
        }
        saveMessage := "Error saving address: " + insertError.value.message;
        isSaving := false;
        return;
      }
      var id := store.NewId();
      var row := AddressFromForm(id, user.id, addressForm);
      SavedAddressesOfUser(store.addresses, user.id, hadAddresses, row);
      store.addresses := AddressTableAfterSave(store.addresses, user.id, hadAddresses, row);
      saveMessage := AddressSavedMessage;
      showAddressForm := false;
      addressForm := EmptyAddressForm;
      if !refreshFails {
        addresses := AddressesOf(store.addresses, user.id);
      }
      isSaving := false;
    }

    /** `deleteAddress`: on success the row goes from the table and the local list. */
    method DeleteAddress(addressId: string, deleteError: Option<DbError>)
      modifies this`saveMessage, this`addresses, store`addresses
      ensures deleteError.Some? ==>
        saveMessage == "Error deleting address: " + deleteError.value.message &&
        addresses == old(addresses) && unchanged(store)
      ensures deleteError.None? ==>
        && store.addresses == WithoutAddress(old(store.addresses), addressId)
        && addresses == WithoutAddress(old(addresses), addressId)
        && saveMessage == AddressDeletedMessage
    {
      if deleteError.Some? {
        saveMessage := "Error deleting address: " + deleteError.value.message;
        return;
      }
      store.addresses := WithoutAddress(store.addresses, addressId);
      saveMessage := AddressDeletedMessage;
      addresses := WithoutAddress(addresses, addressId);
    }
  }
}
