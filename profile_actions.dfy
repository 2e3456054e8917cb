/** The profile actions: `updateProfileAction`, which writes the contact fields the form
    filled in, and `updateInvoiceTemplateAction`, which checks the template and the
    user's access to it before writing it. Both write through `updateProfile`, which sets
    the keys it is given (and `updatedAt`) on the user's profile row. The signed-in user
    and the answer of `canUseTemplate`, whose body is not part of this model, are
    inputs. */
module ProfileActions {
  import opened Wrappers
  import opened Text
  import opened Seqs
  import opened Db
  import opened Usage
  import opened TemplateAccess

  /** `UpdateProfileData`: `None` is a key left out (or `undefined`), which `set` skips. */
  datatype ProfilePatch = ProfilePatch(
    fullName: Option<string>,
    companyName: Option<string>,
    phone: Option<string>,
    address: Option<string>,
    logoUrl: Option<string>,
    invoiceTemplate: Option<string>)

  function Pick(given: Option<string>, stored: Option<string>): Option<string> {
    if given.Some? then given else stored
  }

  /** The row after `set({ ...data, updatedAt })`. */
  function PatchedProfile(r: ProfileRow, p: ProfilePatch, now: int): ProfileRow {
    r.(fullName := Pick(p.fullName, r.fullName), companyName := Pick(p.companyName, r.companyName),
       phone := Pick(p.phone, r.phone), address := Pick(p.address, r.address),
       logoUrl := Pick(p.logoUrl, r.logoUrl), invoiceTemplate := Pick(p.invoiceTemplate, r.invoiceTemplate),
       updatedAt := now)
  }

  /** `updateProfile`: the row with the user's id is patched, every other row is kept;
      without such a row nothing changes. */
  function WithProfilePatch(t: seq<ProfileRow>, userId: nat, p: ProfilePatch, now: int): (r: seq<ProfileRow>)
    ensures |r| == |t|
    ensures forall i :: 0 <= i < |t| ==> r[i].id == t[i].id && r[i].email == t[i].email
                                         && r[i].createdAt == t[i].createdAt
    ensures forall i :: 0 <= i < |t| && t[i].id != userId ==> r[i] == t[i]
  {
    seq(|t|, i requires 0 <= i < |t| => if t[i].id == userId then PatchedProfile(t[i], p, now) else t[i])
  }

  /** A patch keeps the profile ids, so every key and reference still holds. */
  lemma PatchKeepsValid(s: Tables, userId: nat, p: ProfilePatch, now: int)
    requires ValidTables(s)
    ensures ValidTables(s.(profiles := WithProfilePatch(s.profiles, userId, p, now)))
  {
    var t := WithProfilePatch(s.profiles, userId, p, now);
    assert Keys(t, ProfileKey) == Keys(s.profiles, ProfileKey);
    assert ProfileIds(t) == ProfileIds(s.profiles) by {
      forall x | x in ProfileIds(s.profiles) ensures x in ProfileIds(t) {
        var r :| r in s.profiles && r.id == x;
        var k :| 0 <= k < |s.profiles| && s.profiles[k] == r;
        assert t[k] in t;
      }
      forall x | x in ProfileIds(t) ensures x in ProfileIds(s.profiles) {
        var r :| r in t && r.id == x;
        var k :| 0 <= k < |t| && t[k] == r;
        assert s.profiles[k] in s.profiles;
      }
    }
  }

  /** `updateProfile` on the database. */
  method UpdateProfile(db: Database, userId: nat, p: ProfilePatch, now: int)
    requires db.Valid()
    modifies db
    ensures db.Valid()
    ensures db.State() == old(db.State()).(profiles := WithProfilePatch(old(db.profiles), userId, p, now))
  {
    PatchKeepsValid(db.State(), userId, p, now);
    db.profiles := WithProfilePatch(db.profiles, userId, p, now);
  }

  /** `ProfileActionState` and `TemplateActionState`: an error, or success. */
  datatype ProfileActionState = ProfileFailed(error: string) | ProfileSaved

  // ---------------------------------------------------------------------------------
  // updateProfileAction

  const ProfileNotLoggedIn: string := "You must be logged in to update your profile"

  datatype ProfileForm = ProfileForm(
    fullName: Option<string>,
    companyName: Option<string>,
    phone: Option<string>,
    address: Option<string>)

  /** Each field read as text (`|| ""`), which the schema of optional strings always
      accepts, then passed on as `value || undefined`. */
  function ProfilePatchOf(f: ProfileForm): ProfilePatch {
    ProfilePatch(NullIfEmpty(Some(OrEmpty(f.fullName))), NullIfEmpty(Some(OrEmpty(f.companyName))),
                 NullIfEmpty(Some(OrEmpty(f.phone))), NullIfEmpty(Some(OrEmpty(f.address))), None, None)
  }

  function ProfileOutcome(s: Tables, user: Option<nat>, form: ProfileForm, now: int)
    : (r: (ProfileActionState, Tables))
    ensures user.None? <==> r.0 == ProfileFailed(ProfileNotLoggedIn)
    ensures r.0.ProfileFailed? ==> r.1 == s
  {
    match user
    case None => (ProfileFailed(ProfileNotLoggedIn), s)
    case Some(userId) =>
      (ProfileSaved, s.(profiles := WithProfilePatch(s.profiles, userId, ProfilePatchOf(form), now)))
  }

  /** A filled-in field is stored as typed; a blank one leaves the stored value as it
      was, so the form cannot clear a field. The logo, the template and every other
      table are untouched. */
  lemma ProfileFieldsWritten(s: Tables, userId: nat, form: ProfileForm, now: int, i: nat)
    requires i < |s.profiles| && s.profiles[i].id == userId
    ensures var before := s.profiles[i];
      var after := ProfileOutcome(s, Some(userId), form, now).1.profiles[i];
      (OrEmpty(form.fullName) != "" ==> after.fullName == Some(OrEmpty(form.fullName)))
      && (OrEmpty(form.fullName) == "" ==> after.fullName == before.fullName)
      && (OrEmpty(form.companyName) != "" ==> after.companyName == Some(OrEmpty(form.companyName)))
      && (OrEmpty(form.companyName) == "" ==> after.companyName == before.companyName)
      && (OrEmpty(form.phone) != "" ==> after.phone == Some(OrEmpty(form.phone)))
      && (OrEmpty(form.phone) == "" ==> after.phone == before.phone)
      && (OrEmpty(form.address) != "" ==> after.address == Some(OrEmpty(form.address)))
      && (OrEmpty(form.address) == "" ==> after.address == before.address)
      && after.logoUrl == before.logoUrl && after.invoiceTemplate == before.invoiceTemplate
    ensures var s' := ProfileOutcome(s, Some(userId), form, now).1;
      s'.clients == s.clients && s'.invoices == s.invoices && s'.items == s.items
      && s'.subscriptions == s.subscriptions && s'.nextId == s.nextId
  {
  }

  /** `updateProfileAction`. */
  method UpdateProfileAction(db: Database, user: Option<nat>, form: ProfileForm, now: int)
    returns (r: ProfileActionState)
    requires db.Valid()
    modifies db
    ensures db.Valid()
    ensures (r, db.State()) == ProfileOutcome(old(db.State()), user, form, now)
  {
    if user.None? {
      return ProfileFailed(ProfileNotLoggedIn);
    }
    UpdateProfile(db, user.value, ProfilePatchOf(form), now);
    r := ProfileSaved;
  }

  // ---------------------------------------------------------------------------------
  // updateInvoiceTemplateAction

  const TemplateNotLoggedIn: string := "You must be logged in to update your template"
  const InvalidTemplate: string := "Invalid template selected"
  const NoTemplateAccess: string := "You don't have access to this template"

  const ValidTemplates: seq<string> := ["default", "classic", "simple", "modern", "professional", "creative"]

  /** The templates the action accepts are exactly those the tier table knows. */
  lemma ValidTemplatesAreTheTable(template: string)
    ensures template in ValidTemplates <==> template in TemplateTiers
  {
  }

  /** Only the template key. */
  function TemplatePatch(template: string): ProfilePatch {
    ProfilePatch(None, None, None, None, None, Some(template))
  }

  /** The answer and the tables after it; `access` is what `canUseTemplate` returned. */
  function TemplateOutcome(s: Tables, user: Option<nat>, template: string, access: Decision, now: int)
    : (r: (ProfileActionState, Tables))
    ensures r.0.ProfileFailed? ==> r.1 == s
  {
    if user.None? then (ProfileFailed(TemplateNotLoggedIn), s)
    else if template !in ValidTemplates then (ProfileFailed(InvalidTemplate), s)
    else if !access.allowed then
      (ProfileFailed(if access.reason.Some? && access.reason.value != "" then access.reason.value
                     else NoTemplateAccess), s)
    else (ProfileSaved, s.(profiles := WithProfilePatch(s.profiles, user.value, TemplatePatch(template), now)))
  }

  /** The checks run in order: signed in, a known template, then access; a denial shows
      the gate's reason, or a fixed text when it gave none. */
  lemma TemplateGuardOrder(s: Tables, user: Option<nat>, template: string, access: Decision, now: int)
    ensures var r := TemplateOutcome(s, user, template, access, now).0;
      (user.None? ==> r == ProfileFailed(TemplateNotLoggedIn))
      && (user.Some? && template !in TemplateTiers ==> r == ProfileFailed(InvalidTemplate))
      && (user.Some? && template in TemplateTiers && !access.allowed ==>
            r == ProfileFailed(if access.reason == None || access.reason == Some("") then NoTemplateAccess
                               else access.reason.value))
      && (r == ProfileSaved <==> user.Some? && template in TemplateTiers && access.allowed)
  {
    ValidTemplatesAreTheTable(template);
  }

  /** On success only the template (and the time of the update) changes, on the user's
      row alone. */
  lemma OnlyTemplateWritten(s: Tables, userId: nat, template: string, access: Decision, now: int, i: nat)
    requires TemplateOutcome(s, Some(userId), template, access, now).0 == ProfileSaved
    requires i < |s.profiles|
    ensures var after := TemplateOutcome(s, Some(userId), template, access, now).1;
      after == s.(profiles := after.profiles)
      && after.profiles[i] == (if s.profiles[i].id == userId
                               then s.profiles[i].(invoiceTemplate := Some(template), updatedAt := now)
                               else s.profiles[i])
  {
  }

  /** `updateInvoiceTemplateAction`. */
  method UpdateInvoiceTemplateAction(db: Database, user: Option<nat>, template: string, access: Decision, now: int)
    returns (r: ProfileActionState)
    requires db.Valid()
    modifies db
    ensures db.Valid()
    ensures (r, db.State()) == TemplateOutcome(old(db.State()), user, template, access, now)
  {
    if user.None? {
      return ProfileFailed(TemplateNotLoggedIn);
    }
    if template !in ValidTemplates {
      return ProfileFailed(InvalidTemplate);
    }
    if !access.allowed {
      if access.reason.Some? && access.reason.value != "" {
        return ProfileFailed(access.reason.value);
      }
      return ProfileFailed(NoTemplateAccess);
    }
    UpdateProfile(db, user.value, TemplatePatch(template), now);
    r := ProfileSaved;
  }
}
