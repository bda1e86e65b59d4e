/** The moderation-email pipeline: the two kind-specific builders decide
    whether a moderation write earns its owner an email, and the handler
    appends the email they build, if any, to the `emails` collection. */
module ModerationEmails {
  import opened Text
  import opened Moderation
  import opened Templates

  /** The role that, for now, gates moderation emails. */
  const BETA_TESTER: string := "beta-tester"

  /** A user document; a user without `userRoles` has no roles. */
  datatype UserProfile = UserProfile(
    id: string, authId: string, displayName: string, userName: string, roles: seq<string>)

  /** A how-to snapshot: its id, title, creating user and moderation state. */
  datatype HowTo = HowTo(id: string, title: string, createdBy: string, moderation: Status)

  /** A map pin snapshot; a pin's id is the id of the user it belongs to. */
  datatype MapPin = MapPin(id: string, moderation: Status)

  /** One observed write, tagged by the collection it happened in. */
  datatype DocumentChange =
    | HowToChange(beforeHowTo: HowTo, afterHowTo: HowTo)
    | MapPinChange(beforePin: MapPin, afterPin: MapPin)

  /** A document of the `emails` collection, later delivered by a mailer. */
  datatype EmailRecord = EmailRecord(to: string, message: Message)

  /** What the builders read besides the change: the user directory, the
      authentication service's addresses by auth id, the site's base URL and
      the template constants. */
  datatype Env = Env(
    users: map<string, UserProfile>,
    authEmails: map<string, string>,
    siteUrl: string,
    text: EmailConstants)

  /** The role gate: whether a user's roles include the beta-tester role. */
  function IsBetaTester(roles: seq<string>): (r: bool)
    ensures r <==> BETA_TESTER in roles
  {
    if roles == [] then false
    else roles[0] == BETA_TESTER || IsBetaTester(roles[1..])
  }

  /** The owner can be emailed: their profile exists, passes the role gate and
      has an address at the authentication service. */
  ghost predicate Eligible(ownerId: string, env: Env)
  {
    ownerId in env.users
    && BETA_TESTER in env.users[ownerId].roles
    && env.users[ownerId].authId in env.authEmails
  }

  /** The address of an eligible owner. */
  ghost function AddressOf(ownerId: string, env: Env): string
    requires Eligible(ownerId, env)
  {
    env.authEmails[env.users[ownerId].authId]
  }

  /** Shared by both builders: classify, look the owner up, gate, render. */
  function BuildFor(before: Status, after: Status, ownerId: string, c: Content, env: Env): Option<EmailRecord>
  {
    var t := Classify(before, after);
    if t == NoOp || ownerId !in env.users then None
    else
      var user := env.users[ownerId];
      if !IsBetaTester(user.roles) || user.authId !in env.authEmails then None
      else Some(EmailRecord(env.authEmails[user.authId], Render(t, c, user.displayName, env.siteUrl, env.text)))
  }

  /** The how-to builder. The creating user receives an email exactly when the
      how-to became accepted or became awaiting moderation and that user is
      eligible; an approval carries the approval subject, the title and the
      how-to's link, a submission the submission subject and the title. */
  function CreateHowtoModerationEmail(before: HowTo, after: HowTo, env: Env): (r: Option<EmailRecord>)
    ensures r.Some? <==>
      ((after.moderation == Accepted && before.moderation != Accepted)
       || (after.moderation == AwaitingModeration && before.moderation != AwaitingModeration))
      && Eligible(after.createdBy, env)
    ensures r.Some? ==>
      && r.value.to == AddressOf(after.createdBy, env)
      && Contains(r.value.message.html, "Hey " + env.users[after.createdBy].displayName)
      && Contains(r.value.message.html, env.text.signoff)
    ensures r.Some? && after.moderation == Accepted ==>
      && r.value.message.subject == env.text.howToApprovalSubject
      && Contains(r.value.message.html, "Huzzah! Your How-To " + after.title + " has been approved.")
      && Contains(r.value.message.html, env.siteUrl + "/how-to/" + after.id)
    ensures r.Some? && after.moderation == AwaitingModeration ==>
      && r.value.message.subject == env.text.howToSubmissionSubject
      && Contains(r.value.message.html, "Huzzah! Your How-To " + after.title + " has been submitted.")
  {
    BuildFor(before.moderation, after.moderation, after.createdBy, HowToContent(after.id, after.title), env)
  }

  /** The map pin builder. The pin's owner, whose user id is the pin's id,
      receives an email exactly when the pin became accepted or became
      awaiting moderation and the owner is eligible; an approval carries the
      approval subject and the pin's link on the map, a submission the
      submission subject and the submission sentence. */
  function CreateMapPinModerationEmail(before: MapPin, after: MapPin, env: Env): (r: Option<EmailRecord>)
    ensures r.Some? <==>
      ((after.moderation == Accepted && before.moderation != Accepted)
       || (after.moderation == AwaitingModeration && before.moderation != AwaitingModeration))
      && Eligible(after.id, env)
    ensures r.Some? ==>
      && r.value.to == AddressOf(after.id, env)
      && Contains(r.value.message.html, "Hey " + env.users[after.id].displayName)
      && Contains(r.value.message.html, env.text.signoff)
    ensures r.Some? && after.moderation == Accepted ==>
      && r.value.message.subject == env.text.mapPinApprovalSubject
      && Contains(r.value.message.html, env.siteUrl + "/map#" + after.id)
    ensures r.Some? && after.moderation == AwaitingModeration ==>
      && r.value.message.subject == env.text.mapPinSubmissionSubject
      && Contains(r.value.message.html, "Your map pin has been submitted.")
  {
    BuildFor(before.moderation, after.moderation, after.id, MapPinContent(after.id), env)
  }

  /** The builder chosen by the collection the change happened in. */
  function BuildEmail(change: DocumentChange, env: Env): Option<EmailRecord>
  {
    match change
    case HowToChange(before, after) => CreateHowtoModerationEmail(before, after, env)
    case MapPinChange(before, after) => CreateMapPinModerationEmail(before, after, env)
  }

  /** The user a change concerns. */
  function Owner(change: DocumentChange): string
  {
    match change
    case HowToChange(_, after) => after.createdBy
    case MapPinChange(_, after) => after.id
  }

  function Before(change: DocumentChange): Status
  {
    match change
    case HowToChange(before, _) => before.moderation
    case MapPinChange(before, _) => before.moderation
  }

  function After(change: DocumentChange): Status
  {
    match change
    case HowToChange(_, after) => after.moderation
    case MapPinChange(_, after) => after.moderation
  }

  /** For both kinds, an owner who cannot be emailed (no profile, no
      beta-tester role or no auth address) gets no email. */
  lemma NoEmailForIneligibleOwner(change: DocumentChange, env: Env)
    requires !Eligible(Owner(change), env)
    ensures BuildEmail(change, env) == None
  {
  }

  /** The role gate applies to both kinds: an owner without the beta-tester
      role is never emailed, whatever the transition. */
  lemma NoEmailWithoutBetaRole(change: DocumentChange, env: Env)
    requires Owner(change) in env.users
    requires !IsBetaTester(env.users[Owner(change)].roles)
    ensures BuildEmail(change, env) == None
  {
    NoEmailForIneligibleOwner(change, env);
  }

  /** A write that leaves the content anywhere but accepted or awaiting
      moderation (a withdrawal to draft, a rejection) sends nothing. */
  lemma NoEmailUnlessAcceptedOrAwaiting(change: DocumentChange, env: Env)
    requires After(change) != Accepted && After(change) != AwaitingModeration
    ensures BuildEmail(change, env) == None
  {
  }

  /** A write that does not change the moderation state sends nothing, so
      re-saving accepted content does not repeat the approval email. */
  lemma NoEmailOnUnchangedStatus(change: DocumentChange, env: Env)
    requires Before(change) == After(change)
    ensures BuildEmail(change, env) == None
  {
  }

  /** The `emails` collection, as the handler sees it. */
  class EmailStore {
    var emails: seq<EmailRecord>

    constructor ()
      ensures emails == []
    {
      emails := [];
    }

    /** Handles one moderation write: appends the record the builder makes,
        if it makes one, and nothing otherwise. */
    method HandleModerationUpdate(change: DocumentChange, env: Env) returns (created: bool)
      modifies this
      ensures created <==> BuildEmail(change, env).Some?
      ensures emails == old(emails) + (if created then [BuildEmail(change, env).value] else [])
      ensures |old(emails)| <= |emails| <= |old(emails)| + 1
    {
      var email := BuildEmail(change, env);
      match email
      case Some(record) =>
        emails := emails + [record];
        created := true;
      case None =>
        created := false;
    }
  }
}
