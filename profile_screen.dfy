/**
 * The profile screen's edit dialog: filling it from the signed-in user, the
 * phone check, and the loading and visibility flags around the update
 * request.
 */
module ProfileScreen {
  import opened Wrappers
  import opened Entities
  import Validators
  import AuthSlice

  const INVALID_PHONE := "Phone number must be exactly 11 digits"

  /** `phone && !/^\d{11}$/.test(phone)` fails the update: an empty phone is
      accepted, any other must be exactly eleven digits 0-9. */
  predicate PhoneAccepted(phone: string) {
    phone == "" || Validators.IsElevenDigits(phone)
  }

  class ProfileEditor {
    var modalVisible: bool
    var name: string
    var email: string
    var phone: string
    var updateLoading: bool

    constructor ()
      ensures !modalVisible && name == "" && email == "" && phone == "" && !updateLoading
    {
      modalVisible, name, email, phone, updateLoading := false, "", "", "", false;
    }

    /** `openEditModal`: without a user nothing happens; otherwise the
        fields are filled from the user ("" for a missing one) and the
        dialog opens. */
    method OpenEditModal(user: Option<User>)
      modifies this`name, this`email, this`phone, this`modalVisible
      ensures user.None? ==> (name == old(name) && email == old(email) && phone == old(phone)
        && modalVisible == old(modalVisible))
      ensures user.Some? ==> (name == OrEmpty(user.value.name) && email == OrEmpty(user.value.email)
        && phone == OrEmpty(user.value.phone) && modalVisible)
    {
      if user.Some? {
        name, email, phone := OrEmpty(user.value.name), OrEmpty(user.value.email), OrEmpty(user.value.phone);
        modalVisible := true;
      }
    }

    method ChangePhone(text: string)
      modifies this`phone
      ensures phone == text
    {
      phone := text;
    }

    /** The first half of `handleUpdateProfile`: an unacceptable phone stops
        it with an alert and no request; otherwise loading starts and the
        three fields are sent. */
    method UpdateStart() returns (update: Option<AuthSlice.ProfileUpdate>)
      modifies this`updateLoading
      ensures update.Some? <==> PhoneAccepted(phone)
      ensures update.Some? ==> updateLoading && update.value == AuthSlice.ProfileUpdate(name, email, phone)
      ensures update.None? ==> updateLoading == old(updateLoading)
    {
      if phone != "" && !Validators.IsElevenDigits(phone) {
        return None;
      }
      updateLoading := true;
      return Some(AuthSlice.ProfileUpdate(name, email, phone));
    }

    /** The second half: the dialog closes only after a successful update
        and stays open on failure; loading ends either way. */
    method UpdateSettled(ok: bool)
      modifies this`modalVisible, this`updateLoading
      ensures !updateLoading
      ensures ok ==> !modalVisible
      ensures !ok ==> modalVisible == old(modalVisible)
    {
      if ok {
        modalVisible := false;
      }
      updateLoading := false;
    }
  }
}
