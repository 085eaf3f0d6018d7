/** The profile routes of the backend, acting on the signed-in user's row: the
    partial profile update, the photo upload, the settings with their defaults,
    a new authentication request, and the soft delete of the account. The outcome
    of the profile update's commit is a parameter. */
module ProfileRoutes {
  import opened Wrappers
  import opened Text
  import opened Register

  datatype HttpError = HttpError(status: nat, detail: string)

  /** `UserProfileUpdate`: a field left out of the request body is `None`. The date
      of birth is kept as its ISO text. */
  datatype ProfileUpdate = ProfileUpdate(name: Option<string>, bio: Option<string>,
                                         phoneNumber: Option<string>, dateOfBirth: Option<string>)

  /** The notification preferences as stored JSON: a key missing from the object is
      `None`. */
  datatype NotificationPrefs = NotificationPrefs(push: Option<bool>, emailUpdates: Option<bool>, sms: Option<bool>)

  /** The privacy settings as stored JSON. */
  datatype PrivacyPrefs = PrivacyPrefs(profileVisibility: Option<string>, showAuthenticationHistory: Option<bool>,
                                       allowContact: Option<bool>)

  /** `NotificationSettings` with every field present. */
  datatype NotificationSettings = NotificationSettings(push: bool, emailUpdates: bool, sms: bool)

  /** `PrivacySettings` with every field present. */
  datatype PrivacySettings = PrivacySettings(profileVisibility: string, showAuthenticationHistory: bool, allowContact: bool)

  datatype UserSettings = UserSettings(notifications: NotificationSettings, privacy: PrivacySettings)

  /** A row of the authentications table as the request creates it. */
  datatype AuthenticationRecord = AuthenticationRecord(userId: nat, productId: Option<nat>, brandName: string,
                                                       productName: string, photos: Option<seq<string>>, status: string)

  /** `AuthenticationCreate`. */
  datatype AuthenticationCreate = AuthenticationCreate(productId: Option<nat>, brandName: string,
                                                       productName: string, photos: Option<seq<string>>)

  const UpdateFailed := HttpError(400, "Failed to update profile")
  const NotAnImage := HttpError(400, "File must be an image")
  const PhotoUrlPrefix := "https://your-storage.com/profiles/"

  /** `NotificationSettings(**(prefs or {}))`: every missing key takes the schema's
      default (push on, email updates off, SMS off). */
  function NotificationsOrDefaults(prefs: Option<NotificationPrefs>): (n: NotificationSettings)
    ensures prefs.None? ==> n == NotificationSettings(true, false, false)
    ensures prefs.Some? ==>
      && n.push == prefs.value.push.GetOr(true)
      && n.emailUpdates == prefs.value.emailUpdates.GetOr(false)
      && n.sms == prefs.value.sms.GetOr(false)
  {
    var p := prefs.GetOr(NotificationPrefs(None, None, None));
    NotificationSettings(p.push.GetOr(true), p.emailUpdates.GetOr(false), p.sms.GetOr(false))
  }

  /** `PrivacySettings(**(prefs or {}))`: visibility "public", history shown and
      contact allowed unless stored otherwise. */
  function PrivacyOrDefaults(prefs: Option<PrivacyPrefs>): (p: PrivacySettings)
    ensures prefs.None? ==> p == PrivacySettings("public", true, true)
    ensures prefs.Some? ==>
      && p.profileVisibility == prefs.value.profileVisibility.GetOr("public")
      && p.showAuthenticationHistory == prefs.value.showAuthenticationHistory.GetOr(true)
      && p.allowContact == prefs.value.allowContact.GetOr(true)
  {
    var q := prefs.GetOr(PrivacyPrefs(None, None, None));
    PrivacySettings(q.profileVisibility.GetOr("public"), q.showAuthenticationHistory.GetOr(true), q.allowContact.GetOr(true))
  }

  /** `settings.notifications.dict()`: the JSON stored by the settings update, with
      every key present. */
  function NotificationsJson(n: NotificationSettings): (p: NotificationPrefs)
    ensures p.push.Some? && p.emailUpdates.Some? && p.sms.Some?
  {
    NotificationPrefs(Some(n.push), Some(n.emailUpdates), Some(n.sms))
  }

  function PrivacyJson(s: PrivacySettings): (p: PrivacyPrefs)
    ensures p.profileVisibility.Some? && p.showAuthenticationHistory.Some? && p.allowContact.Some?
  {
    PrivacyPrefs(Some(s.profileVisibility), Some(s.showAuthenticationHistory), Some(s.allowContact))
  }

  /** Reading stored settings back gives exactly what was stored. */
  lemma SettingsRoundTrip(s: UserSettings)
    ensures NotificationsOrDefaults(Some(NotificationsJson(s.notifications))) == s.notifications
    ensures PrivacyOrDefaults(Some(PrivacyJson(s.privacy))) == s.privacy
  {
  }

  /** An empty stored object and no stored object read the same. */
  lemma EmptyPrefsAreDefaults()
    ensures NotificationsOrDefaults(Some(NotificationPrefs(None, None, None))) == NotificationsOrDefaults(None)
    ensures PrivacyOrDefaults(Some(PrivacyPrefs(None, None, None))) == PrivacyOrDefaults(None)
  {
  }

  /** `f"https://your-storage.com/profiles/{user_id}_{filename}"`. */
  function PhotoUrl(userId: nat, filename: string): (u: string)
    ensures StartsWith(u, PhotoUrlPrefix)
    ensures u[|PhotoUrlPrefix|..] == NatToString(userId) + "_" + filename
  {
    PhotoUrlPrefix + NatToString(userId) + "_" + filename
  }

  /** Two users never get the same photo URL, and one user gets distinct URLs for
      distinct file names: the id is all digits, so the first `_` after the prefix
      ends it. */
  lemma {:induction false} PhotoUrlInjective(a: nat, f: string, b: nat, g: string)
    requires PhotoUrl(a, f) == PhotoUrl(b, g)
    ensures a == b && f == g
  {
    var x, y := NatToString(a), NatToString(b);
    var u, v := x + "_" + f, y + "_" + g;
    assert u == PhotoUrl(a, f)[|PhotoUrlPrefix|..];
    assert v == PhotoUrl(b, g)[|PhotoUrlPrefix|..];
    if |x| < |y| {
      DigitsEndAtUnderscore(x, f, y, g);
      assert false;
    } else if |y| < |x| {
      DigitsEndAtUnderscore(y, g, x, f);
      assert false;
    }
    assert x == u[..|x|] == v[..|y|] == y;
    NatToStringInjective(a, b);
    assert f == u[|x| + 1..] == v[|y| + 1..] == g;
  }

  /** After a shorter run of digits comes the `_`, where the longer run still has a
      digit, so the two strings differ there. */
  lemma DigitsEndAtUnderscore(x: string, f: string, y: string, g: string)
    requires forall i :: 0 <= i < |y| ==> IsDigit(y[i])
    requires |x| < |y|
    ensures (x + "_" + f)[|x|] != (y + "_" + g)[|x|]
  {
    assert (x + "_" + f)[|x|] == '_';
    assert (y + "_" + g)[|x|] == y[|x|];
  }

  /** The email `delete_account` writes, as written: `f"deleted_{id} @deleted.com"`,
      with a space before the `@`. */
  function DeletedEmailAsWritten(userId: nat): (e: string)
    ensures Contains(e, " @")
  {
    var a, b := "deleted_" + NatToString(userId), " @deleted.com";
    var e := a + b;
    assert e[|a|..] == b;
    assert StartsWith(b, " @");
    ContainsSuffix(e, |a|, " @");
    e
  }

  /** The anonymised address is not an email address by the app's own sign-up
      pattern, since it contains whitespace. */
  lemma DeletedEmailAsWrittenInvalid(userId: nat)
    ensures !MatchesEmailRegex(DeletedEmailAsWritten(userId))
  {
    var e := DeletedEmailAsWritten(userId);
    var k := 8 + |NatToString(userId)|;
    assert e[k] == ' ';
    assert !NoWhitespace(e);
    if MatchesEmailRegex(e) {
      EmailRegexSound(e);
    }
  }

  /** The evidently intended anonymised address, `deleted_{id}@deleted.com`. */
  function DeletedEmail(userId: nat): (e: string)
    ensures MatchesEmailRegex(e)
    ensures e != DeletedEmailAsWritten(userId)
  {
    var x := NatToString(userId);
    var e := "deleted_" + x + "@deleted.com";
    var i := 8 + |x|;
    assert e[..i] == "deleted_" + x;
    assert e[i] == '@' && e[i + 8] == '.';
    assert e[i + 1..i + 8] == "deleted";
    assert e[i + 9..] == "com";
    assert EmailPart(e[..i]);
    assert MatchesEmailRegex(e) by {
      assert 0 < i && i + 1 < i + 8 && i + 9 < |e|;
    }
    assert |e| != |DeletedEmailAsWritten(userId)|;
    e
  }

  /** A suffix that starts with `t` makes the whole string contain `t`. */
  lemma {:induction false} ContainsSuffix(s: string, k: nat, t: string)
    requires k <= |s| && StartsWith(s[k..], t)
    ensures Contains(s, t)
    decreases k
  {
    if k > 0 {
      assert s[1..][k - 1..] == s[k..];
      ContainsSuffix(s[1..], k - 1, t);
    }
  }

  /** The signed-in user's row, and the authentication requests it has made. */
  class UserAccount {
    const id: nat
    var name: string
    var email: string
    var bio: Option<string>
    var phoneNumber: Option<string>
    var dateOfBirth: Option<string>
    var profilePicture: Option<string>
    var isActive: bool
    var notificationPrefs: Option<NotificationPrefs>
    var privacyPrefs: Option<PrivacyPrefs>
    var authentications: seq<AuthenticationRecord>

    constructor (userId: nat, userName: string, userEmail: string)
      ensures id == userId && name == userName && email == userEmail
      ensures bio.None? && phoneNumber.None? && dateOfBirth.None? && profilePicture.None?
      ensures isActive && notificationPrefs.None? && privacyPrefs.None? && authentications == []
    {
      id := userId;
      name, email := userName, userEmail;
      bio, phoneNumber, dateOfBirth, profilePicture := None, None, None, None;
      isActive := true;
      notificationPrefs, privacyPrefs := None, None;
      authentications := [];
    }

    /** `update_profile`: each of the four fields supplied in the request replaces
        the stored one, the others keep their values; a failed commit rolls every
        change back and answers 400. */
    method UpdateProfile(update: ProfileUpdate, commitOk: bool) returns (r: Result<(), HttpError>)
      modifies this`name, this`bio, this`phoneNumber, this`dateOfBirth
      ensures !commitOk ==> r == Err(UpdateFailed)
      ensures !commitOk ==> name == old(name) && bio == old(bio) && phoneNumber == old(phoneNumber) && dateOfBirth == old(dateOfBirth)
      ensures commitOk ==> r == Ok(())
      ensures commitOk ==> name == update.name.GetOr(old(name))
      ensures commitOk ==> bio == (if update.bio.Some? then update.bio else old(bio))
      ensures commitOk ==> phoneNumber == (if update.phoneNumber.Some? then update.phoneNumber else old(phoneNumber))
      ensures commitOk ==> dateOfBirth == (if update.dateOfBirth.Some? then update.dateOfBirth else old(dateOfBirth))
    {
      var oldName, oldBio, oldPhone, oldBirth := name, bio, phoneNumber, dateOfBirth;
      if update.name.Some? {
        name := update.name.value;
      }
      if update.bio.Some? {
        bio := update.bio;
      }
      if update.phoneNumber.Some? {
        phoneNumber := update.phoneNumber;
      }
      if update.dateOfBirth.Some? {
        dateOfBirth := update.dateOfBirth;
      }
      if !commitOk {
        name, bio, phoneNumber, dateOfBirth := oldName, oldBio, oldPhone, oldBirth;
        return Err(UpdateFailed);
      }
      r := Ok(());
    }

    /** `upload_profile_photo`: anything whose content type does not start with
        `image/` is refused with 400 and changes nothing; an image's URL is stored
        and returned. */
    method UploadProfilePhoto(contentType: string, filename: string) returns (r: Result<string, HttpError>)
      modifies this`profilePicture
      ensures !StartsWith(contentType, "image/") ==> r == Err(NotAnImage) && profilePicture == old(profilePicture)
      ensures StartsWith(contentType, "image/") ==> r == Ok(PhotoUrl(id, filename)) && profilePicture == Some(PhotoUrl(id, filename))
    {
      if !StartsWith(contentType, "image/") {
        return Err(NotAnImage);
      }
      var url := PhotoUrl(id, filename);
      profilePicture := Some(url);
      r := Ok(url);
    }

    /** `get_user_settings`. */
    function Settings(): (s: UserSettings)
      reads this
      ensures s.notifications == NotificationsOrDefaults(notificationPrefs)
      ensures s.privacy == PrivacyOrDefaults(privacyPrefs)
    {
      UserSettings(NotificationsOrDefaults(notificationPrefs), PrivacyOrDefaults(privacyPrefs))
    }

    /** `update_user_settings`: both groups are stored whole, so reading them back
        gives exactly the settings sent. */
    method UpdateSettings(s: UserSettings)
      modifies this`notificationPrefs, this`privacyPrefs
      ensures notificationPrefs == Some(NotificationsJson(s.notifications))
      ensures privacyPrefs == Some(PrivacyJson(s.privacy))
      ensures Settings() == s
    {
      notificationPrefs := Some(NotificationsJson(s.notifications));
      privacyPrefs := Some(PrivacyJson(s.privacy));
      SettingsRoundTrip(s);
    }

    /** `create_authentication_request`: a new request of this user, pending. */
    method CreateAuthentication(data: AuthenticationCreate) returns (a: AuthenticationRecord)
      modifies this`authentications
      ensures a.status == "PENDING" && a.userId == id
      ensures a.productId == data.productId && a.brandName == data.brandName
      ensures a.productName == data.productName && a.photos == data.photos
      ensures authentications == old(authentications) + [a]
    {
      a := AuthenticationRecord(id, data.productId, data.brandName, data.productName, data.photos, "PENDING");
      authentications := authentications + [a];
    }

    /** `delete_account`: the row stays, inactive and with an anonymised address
        that, as written with a space before the `@`, the email pattern rejects
        (`DeletedEmail` is the intended address). */
    method DeleteAccount()
      modifies this`isActive, this`email
      ensures !isActive && email == DeletedEmailAsWritten(id)
      ensures !MatchesEmailRegex(email)
    {
      isActive := false;
      email := DeletedEmailAsWritten(id);
      DeletedEmailAsWrittenInvalid(id);
    }
  }
}
