/** The user record of the authentication app, reduced to what the ticket
    rules read: the id, the profile and the flags. */
module AuthModels {
  import opened Wrappers

  /** `UserProfile` choices, in declaration order. */
  datatype Profile = Attendant | Technician

  type UserId = nat

  /** The `profile` field's default. */
  const DefaultProfile: Profile := Attendant

  datatype User = User(id: UserId, profile: Profile, isStaff: bool, isSuperuser: bool, isActive: bool)

  /** Who sends a request: Django's anonymous user or an authenticated user record. */
  datatype Requester = Anonymous | Authenticated(user: User)

  /** Keyword arguments that `create_user` passes on to the model; absent ones take the field defaults. */
  datatype ExtraFields = ExtraFields(
    profile: Option<Profile>, isStaff: Option<bool>, isSuperuser: Option<bool>, isActive: Option<bool>)

  const NoExtraFields := ExtraFields(None, None, None, None)

  /** `create_user`: the model with its field defaults (email and password are not modelled). */
  function CreateUser(id: UserId, extra: ExtraFields): (u: User)
    ensures u.id == id
    ensures extra.profile.None? ==> u.profile == DefaultProfile
    ensures extra.isSuperuser.None? ==> !u.isSuperuser
    ensures extra.isStaff.None? ==> !u.isStaff
    ensures extra.isActive.None? ==> u.isActive
    ensures extra.profile.Some? ==> u.profile == extra.profile.value
    ensures extra.isSuperuser.Some? ==> u.isSuperuser == extra.isSuperuser.value
    ensures extra.isStaff.Some? ==> u.isStaff == extra.isStaff.value
    ensures extra.isActive.Some? ==> u.isActive == extra.isActive.value
  {
    User(id, GetOr(extra.profile, DefaultProfile), GetOr(extra.isStaff, false),
         GetOr(extra.isSuperuser, false), GetOr(extra.isActive, true))
  }

  /** `create_superuser`: sets `is_staff` and `is_superuser` unless the caller gave them,
      and leaves `profile` to its default, so a plain superuser has the attendant profile. */
  function CreateSuperuser(id: UserId, extra: ExtraFields): (u: User)
    ensures u.id == id
    ensures extra.isSuperuser.None? ==> u.isSuperuser
    ensures extra.isStaff.None? ==> u.isStaff
    ensures extra.isSuperuser.Some? ==> u.isSuperuser == extra.isSuperuser.value
    ensures extra.isStaff.Some? ==> u.isStaff == extra.isStaff.value
    ensures extra.isActive.None? ==> u.isActive
    ensures extra.isActive.Some? ==> u.isActive == extra.isActive.value
    ensures extra.profile.None? ==> u.profile == Attendant
    ensures extra.profile.Some? ==> u.profile == extra.profile.value
  {
    CreateUser(id, extra.(isStaff := Some(GetOr(extra.isStaff, true)),
                          isSuperuser := Some(GetOr(extra.isSuperuser, true))))
  }
}
